/** How often one approved request is applied: once exactly if no write lands on a request already applied, and twice otherwise. */
module GovernanceRepeats {
  import opened Versioned
  import opened GovernanceState
  import opened GovernanceRuns

  /** The instance that a saving step works on. */
  ghost function Actor(w: World, a: Action): string {
    match a
    case Write(t, _, _) => if t in w.pending then w.pending[t].name else ""
    case Ask(name, _, _, _, _, _) => name
    case Second(name, _, _, _, _) => name
    case Mark(name, _, _, _) => name
    case _ => ""
  }

  ghost function FateOf(a: Action): Fate {
    if a.Ask? || a.Second? || a.Mark? || a.Write? then a.fate else LostBefore
  }

  /** The step adds a revision. */
  ghost predicate Lands(o: Outside, w: World, a: Action) {
    && Ends(o, w, a).Commit? && FateOf(a) != LostBefore
    && Actor(w, a) in w.replicas && w.replicas[Actor(w, a)].revision + 1 == |w.history|
  }

  /** The step adds a revision in which it applies this request. */
  ghost predicate Applies(o: Outside, w: World, a: Action, id: string) {
    Lands(o, w, a) && ((a.Write? && a.thread in w.pending && w.pending[a.thread].id == id) || (a.Mark? && a.id == id))
  }

  ghost predicate AppliedIn(g: Governance, id: string) { id in g.requests && g.requests[id].status == APPLIED }

  /** The step is a write that will land on a request its instance already shows as applied. */
  ghost predicate Repeats(o: Outside, w: World, a: Action, id: string) {
    a.Write? && Applies(o, w, a, id) && AppliedIn(w.replicas[Actor(w, a)].document, id)
  }

  /** How many revisions of the run apply the request. */
  ghost function Applications(o: Outside, w: World, steps: seq<Action>, id: string): nat
    requires Runs(o, w, steps)
    decreases |steps|
  {
    if steps == [] then 0
    else (if Applies(o, w, steps[0], id) then 1 else 0) + Applications(o, Apply(o, w, steps[0]), steps[1..], id)
  }

  ghost predicate EverRepeats(o: Outside, w: World, steps: seq<Action>, id: string)
    requires Runs(o, w, steps)
    decreases |steps|
  {
    steps != [] && (Repeats(o, w, steps[0], id) || EverRepeats(o, Apply(o, w, steps[0]), steps[1..], id))
  }

  ghost function Last(w: World): Governance
    requires w.history != []
  {
    w.history[|w.history| - 1]
  }

  /** What a landed step makes of one request's being applied. */
  lemma LandedApplies(o: Outside, w: World, a: Action, id: string)
    requires WorldOk(o, w) && Enabled(o, w, a) && Lands(o, w, a)
    ensures AppliedIn(Ends(o, w, a).next, id) <==> AppliedIn(w.replicas[Actor(w, a)].document, id) || Applies(o, w, a, id)
  {
  }

  lemma HistoryAfter(o: Outside, w: World, a: Action)
    requires WorldOk(o, w) && Enabled(o, w, a)
    ensures Apply(o, w, a).history == if Lands(o, w, a) then w.history + [Ends(o, w, a).next] else w.history
  {
  }

  /** The newest revision shows a request as applied exactly from the step on that applied it. */
  lemma AppliedFromThen(o: Outside, w: World, a: Action, id: string)
    requires WorldOk(o, w) && Enabled(o, w, a)
    ensures Apply(o, w, a).history != []
    ensures AppliedIn(Last(Apply(o, w, a)), id) <==> AppliedIn(Last(w), id) || Applies(o, w, a, id)
  {
    HistoryAfter(o, w, a);
    if Lands(o, w, a) {
      LandedApplies(o, w, a, id);
      assert ReplicaOk(w.history, w.replicas[Actor(w, a)]);
    }
  }

  /** A step that applies a request repeats it exactly if the newest revision already shows it applied. */
  lemma RepeatsIfApplied(o: Outside, w: World, a: Action, id: string)
    requires WorldOk(o, w) && Enabled(o, w, a)
    ensures Repeats(o, w, a, id) <==> Applies(o, w, a, id) && AppliedIn(Last(w), id)
  {
    if Applies(o, w, a, id) {
      assert ReplicaOk(w.history, w.replicas[Actor(w, a)]);
    }
  }

  lemma {:induction false} CountsUp(o: Outside, w: World, steps: seq<Action>, id: string)
    requires WorldOk(o, w) && Runs(o, w, steps)
    ensures Applications(o, w, steps, id) + (if AppliedIn(Last(w), id) then 1 else 0) <= 1 <==>
            !EverRepeats(o, w, steps, id)
    decreases |steps|
  {
    if steps != [] {
      var a := steps[0];
      StepOk(o, w, a);
      AppliedFromThen(o, w, a, id);
      RepeatsIfApplied(o, w, a, id);
      CountsUp(o, Apply(o, w, a), steps[1..], id);
    }
  }

  /** In every run, a request is applied by at most one revision exactly when no write lands while its instance shows it applied. */
  lemma AppliedOnceExactlyWhen(o: Outside, steps: seq<Action>, id: string)
    requires Runs(o, INITIAL, steps)
    ensures Applications(o, INITIAL, steps, id) <= 1 <==> !EverRepeats(o, INITIAL, steps, id)
  {
    CountsUp(o, INITIAL, steps, id);
  }

  // ---- a run that applies one request twice ----

  ghost predicate Reaches(o: Outside, steps: seq<Action>, w: World, id: string, n: nat) {
    Runs(o, INITIAL, steps) && Exec(o, INITIAL, steps) == w && Applications(o, INITIAL, steps, id) == n
  }

  lemma {:induction false} StepsCompose(o: Outside, w: World, steps: seq<Action>, a: Action, id: string)
    requires WorldOk(o, w) && Runs(o, w, steps) && Exec(o, w, steps).history != [] && Enabled(o, Exec(o, w, steps), a)
    ensures Runs(o, w, steps + [a])
    ensures Exec(o, w, steps + [a]) == Apply(o, Exec(o, w, steps), a)
    ensures Applications(o, w, steps + [a], id) ==
            Applications(o, w, steps, id) + if Applies(o, Exec(o, w, steps), a, id) then 1 else 0
    decreases |steps|
  {
    if steps == [] {
      StepOk(o, w, a);
      assert steps + [a] == [a] && [a][1..] == [] && Runs(o, Apply(o, w, a), []);
    } else {
      StepOk(o, w, steps[0]);
      StepsCompose(o, Apply(o, w, steps[0]), steps[1..], a, id);
      assert (steps + [a])[1..] == steps[1..] + [a] && (steps + [a])[0] == steps[0];
    }
  }

  lemma OneMore(o: Outside, steps: seq<Action>, w: World, id: string, n: nat, a: Action)
    requires Reaches(o, steps, w, id, n) && w.history != [] && Enabled(o, w, a)
    ensures Reaches(o, steps + [a], Apply(o, w, a), id, n + if Applies(o, w, a, id) then 1 else 0)
  {
    StepsCompose(o, INITIAL, steps, a, id);
  }

  /** A policy change that the store accepts and can decode. */
  ghost predicate Appliable(o: Outside, input: Input) {
    ValidInput(o, input) && input.action == POLICY_UPSERT && PolicyOf(o, input.payload).Some?
  }

  function Asked(o: Outside, input: Input): Request { NewRequest(o, "r", "first", input, 0) }

  function Twice(o: Outside, input: Input): Request {
    var asked := Asked(o, input);
    asked.(approvals := asked.approvals + [Approval("second", 0)], status := APPROVED)
  }

  /** One administrator asks and another approves. */
  lemma AskedAndApproved(o: Outside, input: Input) returns (steps: seq<Action>, w: World)
    requires Appliable(o, input)
    ensures Reaches(o, steps, w, "r", 0)
    ensures |w.history| == 3 && w.pending == map[]
    ensures w.replicas == map["i" := Replica(Governance(map[], map["r" := Twice(o, input)]), 2, false)]
  {
    steps, w := [], INITIAL;
    OneMore(o, steps, w, "r", 0, Load("i"));
    steps, w := steps + [Load("i")], Apply(o, w, Load("i"));
    assert w.replicas == map["i" := Replica(EMPTY, 0, false)];
    var ask := Ask("i", "r", "first", input, 0, Answered);
    OneMore(o, steps, w, "r", 0, ask);
    steps, w := steps + [ask], Apply(o, w, ask);
    assert w.replicas == map["i" := Replica(Governance(map[], map["r" := Asked(o, input)]), 1, false)];
    var second := Second("i", "r", "second", 0, Answered);
    OneMore(o, steps, w, "r", 0, second);
    steps, w := steps + [second], Apply(o, w, second);
    assert w.replicas["i"].document.requests == map["r" := Twice(o, input)];
    assert w.replicas["i"] == Replica(Governance(map[], map["r" := Twice(o, input)]), 2, false);
  }

  /** Two callers pass the check before either writes. */
  lemma BothChecked(o: Outside, input: Input) returns (steps: seq<Action>, w: World)
    requires Appliable(o, input)
    ensures Reaches(o, steps, w, "r", 0)
    ensures var policy := PolicyOf(o, input.payload).value;
            |w.history| == 3 && w.pending == map[0 := Pending("i", "r", "x", policy), 1 := Pending("i", "r", "y", policy)]
    ensures w.replicas == map["i" := Replica(Governance(map[], map["r" := Twice(o, input)]), 2, false)]
  {
    steps, w := AskedAndApproved(o, input);
    OneMore(o, steps, w, "r", 0, Check(0, "i", "r", "x"));
    steps, w := steps + [Check(0, "i", "r", "x")], Apply(o, w, Check(0, "i", "r", "x"));
    OneMore(o, steps, w, "r", 0, Check(1, "i", "r", "y"));
    steps, w := steps + [Check(1, "i", "r", "y")], Apply(o, w, Check(1, "i", "r", "y"));
  }

  /**
   The check and the write hold the lock separately, so one approved request can be applied by two revisions: for every
   policy change that can be applied at all, whatever hashes and decodes it, there is a run that applies it twice.
   */
  lemma AppliedTwice(o: Outside, input: Input) returns (steps: seq<Action>)
    requires Appliable(o, input)
    ensures Runs(o, INITIAL, steps) && Applications(o, INITIAL, steps, "r") == 2
  {
    var w;
    steps, w := BothChecked(o, input);
    var first, second := Write(0, 0, Answered), Write(1, 0, Answered);
    assert Applies(o, w, first, "r");
    OneMore(o, steps, w, "r", 0, first);
    steps, w := steps + [first], Apply(o, w, first);
    assert w.replicas["i"].revision == 3 && |w.history| == 4 && Applies(o, w, second, "r");
    OneMore(o, steps, w, "r", 1, second);
    steps := steps + [second];
  }
}
