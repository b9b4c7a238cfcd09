/** Message metrics: one counter set per label combination, with a cap on how many combinations are kept apart. */
module Metrics {
  import opened Common
  import opened Sums

  const TRAFFIC_CLASSES: nat := 3
  const OVERFLOW_PROVIDER := "__overflow__"
  const OVERFLOW_MODEL := "__other__"
  const OVERFLOW_TRAFFIC := "__overflow__"

  datatype Key = Key(provider: string, model: string, traffic: string, stream: bool)

  /** A 64-bit counter, which sticks at its largest value. */
  type Count = n: nat | n <= U64_MAX

  datatype Usage = Usage(input: nat, output: nat, cacheWrite: nat, cacheRead: nat, cost: real)

  datatype Counters = Counters(
    requests: Count,
    successes: Count,
    failures: Count,
    durationMs: Count,
    inputTokens: Count,
    outputTokens: Count,
    cacheWriteTokens: Count,
    cacheReadTokens: Count,
    cost: real)

  const NONE: Counters := Counters(0, 0, 0, 0, 0, 0, 0, 0, 0.0)

  datatype Call = Call(key: Key, success: bool, durationMs: nat, usage: Usage)

  type Series = map<Key, Counters>

  function Clip(n: int): Count { if n < 0 then 0 else if n > U64_MAX then U64_MAX else n }

  /** A negative cost estimate counts as nothing. */
  function CostOf(call: Call): real { if call.usage.cost < 0.0 then 0.0 else call.usage.cost }

  // ---- recording ----

  function OverflowSlots(cap: nat): nat {
    var spare := if cap == 0 then 0 else cap - 1;
    if spare < TRAFFIC_CLASSES then spare else TRAFFIC_CLASSES
  }

  function RegularLimit(cap: nat): nat { if cap < OverflowSlots(cap) then 0 else cap - OverflowSlots(cap) }

  function OverflowKey(cap: nat, k: Key): Key {
    Key(OVERFLOW_PROVIDER, OVERFLOW_MODEL, if OverflowSlots(cap) < TRAFFIC_CLASSES then OVERFLOW_TRAFFIC else k.traffic, false)
  }

  /** The series a call is counted in, given the series there are. */
  function Destination(cap: nat, known: set<Key>, k: Key): Key {
    if k !in known && |known| >= RegularLimit(cap) then OverflowKey(cap, k) else k
  }

  function Counted(c: Counters, call: Call): Counters {
    Counters(
      Clip(c.requests + 1),
      if call.success then Clip(c.successes + 1) else c.successes,
      if call.success then c.failures else Clip(c.failures + 1),
      Clip(c.durationMs + call.durationMs),
      Clip(c.inputTokens + call.usage.input),
      Clip(c.outputTokens + call.usage.output),
      Clip(c.cacheWriteTokens + call.usage.cacheWrite),
      Clip(c.cacheReadTokens + call.usage.cacheRead),
      c.cost + CostOf(call))
  }

  function Recorded(cap: nat, s: Series, call: Call): Series {
    var k := Destination(cap, s.Keys, call.key);
    s[k := Counted(if k in s then s[k] else NONE, call)]
  }

  class Recorder {
    const cap: nat
    var messages: Series

    constructor (cap: nat)
      ensures this.cap == cap && messages == map[]
    {
      this.cap := cap;
      messages := map[];
    }

    method RecordMessage(call: Call)
      modifies this
      ensures messages == Recorded(cap, old(messages), call)
    {
      var key := call.key;
      var spare := if cap == 0 then 0 else cap - 1;
      var slots := if spare < TRAFFIC_CLASSES then spare else TRAFFIC_CLASSES;
      var limit := cap - slots;
      if key !in messages && |messages| >= limit {
        key := key.(provider := OVERFLOW_PROVIDER, model := OVERFLOW_MODEL);
        if slots < TRAFFIC_CLASSES {
          key := key.(traffic := OVERFLOW_TRAFFIC);
        }
        key := key.(stream := false);
      }
      assert |messages| == |messages.Keys|;
      var c := if key in messages then messages[key] else NONE;
      c := c.(requests := Clip(c.requests + 1));
      if call.success {
        c := c.(successes := Clip(c.successes + 1));
      } else {
        c := c.(failures := Clip(c.failures + 1));
      }
      c := c.(durationMs := Clip(c.durationMs + call.durationMs));
      c := c.(inputTokens := Clip(c.inputTokens + call.usage.input));
      c := c.(outputTokens := Clip(c.outputTokens + call.usage.output));
      c := c.(cacheWriteTokens := Clip(c.cacheWriteTokens + call.usage.cacheWrite));
      c := c.(cacheReadTokens := Clip(c.cacheReadTokens + call.usage.cacheRead));
      c := c.(cost := c.cost + CostOf(call));
      messages := messages[key := c];
    }
  }

  // ---- runs, and an unbounded tally to compare with ----

  function Run(cap: nat, calls: seq<Call>): Series {
    if calls == [] then map[] else Recorded(cap, Run(cap, calls[..|calls| - 1]), calls[|calls| - 1])
  }

  type Weight = Call -> nat

  const ONE: Weight := (c: Call) => 1
  const SUCCESS: Weight := (c: Call) => if c.success then 1 else 0
  const FAILURE: Weight := (c: Call) => if c.success then 0 else 1
  const MILLIS: Weight := (c: Call) => c.durationMs
  const INPUT: Weight := (c: Call) => c.usage.input
  const OUTPUT: Weight := (c: Call) => c.usage.output
  const CACHE_WRITE: Weight := (c: Call) => c.usage.cacheWrite
  const CACHE_READ: Weight := (c: Call) => c.usage.cacheRead

  /** The weights of the calls added up per series, without any limit on the numbers. */
  ghost function Tally(cap: nat, calls: seq<Call>, w: Weight): map<Key, int> {
    if calls == [] then map[]
    else
      var before, call := Tally(cap, calls[..|calls| - 1], w), calls[|calls| - 1];
      var k := Destination(cap, Run(cap, calls[..|calls| - 1]).Keys, call.key);
      before[k := (if k in before then before[k] else 0) + w(call)]
  }

  function Total(calls: seq<Call>, w: Weight): nat {
    if calls == [] then 0 else Total(calls[..|calls| - 1], w) + w(calls[|calls| - 1])
  }

  lemma {:induction false} TallyKeys(cap: nat, calls: seq<Call>, w: Weight)
    ensures Tally(cap, calls, w).Keys == Run(cap, calls).Keys
    ensures forall k :: k in Tally(cap, calls, w) ==> Tally(cap, calls, w)[k] >= 0
    decreases |calls|
  {
    if calls != [] {
      TallyKeys(cap, calls[..|calls| - 1], w);
    }
  }

  /** A field of the counters adds up a weight of the calls, clipping at every call. */
  ghost predicate Counts(field: Counters -> nat, w: Weight) {
    field(NONE) == 0 && forall c, call :: field(Counted(c, call)) == Clip(field(c) + w(call))
  }

  /** However often it clips, such a field is the clipped exact total of the calls counted in its series. */
  lemma {:induction false} FieldIsClippedTally(cap: nat, calls: seq<Call>, k: Key, field: Counters -> nat, w: Weight)
    requires k in Run(cap, calls) && Counts(field, w)
    ensures k in Tally(cap, calls, w) && field(Run(cap, calls)[k]) == Clip(Tally(cap, calls, w)[k])
    decreases |calls|
  {
    var before, call := calls[..|calls| - 1], calls[|calls| - 1];
    TallyKeys(cap, calls, w);
    TallyKeys(cap, before, w);
    if k in Run(cap, before) {
      FieldIsClippedTally(cap, before, k, field, w);
    }
    var c := if k in Run(cap, before) then Run(cap, before)[k] else NONE;
    assert field(Counted(c, call)) == Clip(field(c) + w(call));
  }

  lemma RequestsAreClippedTallies(cap: nat, calls: seq<Call>, k: Key)
    requires k in Run(cap, calls)
    ensures k in Tally(cap, calls, ONE) && Run(cap, calls)[k].requests == Clip(Tally(cap, calls, ONE)[k])
  {
    FieldIsClippedTally(cap, calls, k, (c: Counters) => c.requests, ONE);
  }

  /** The tally of one key, whether or not its series exists. */
  ghost function TallyOf(cap: nat, calls: seq<Call>, w: Weight, k: Key): int {
    var t := Tally(cap, calls, w);
    if k in t then t[k] else 0
  }

  /** The costs of the calls counted in one series. */
  ghost function CostTally(cap: nat, calls: seq<Call>, k: Key): real {
    if calls == [] then 0.0
    else
      var before, call := calls[..|calls| - 1], calls[|calls| - 1];
      CostTally(cap, before, k) + if Destination(cap, Run(cap, before).Keys, call.key) == k then CostOf(call) else 0.0
  }

  lemma {:induction false} CostIsTallied(cap: nat, calls: seq<Call>, k: Key)
    ensures CostTally(cap, calls, k) == if k in Run(cap, calls) then Run(cap, calls)[k].cost else 0.0
    decreases |calls|
  {
    if calls != [] {
      CostIsTallied(cap, calls[..|calls| - 1], k);
    }
  }

  lemma OutcomesAreTallied(cap: nat, calls: seq<Call>, k: Key)
    requires k in Run(cap, calls)
    ensures Run(cap, calls)[k].requests == Clip(TallyOf(cap, calls, ONE, k))
    ensures Run(cap, calls)[k].successes == Clip(TallyOf(cap, calls, SUCCESS, k))
    ensures Run(cap, calls)[k].failures == Clip(TallyOf(cap, calls, FAILURE, k))
    ensures Run(cap, calls)[k].durationMs == Clip(TallyOf(cap, calls, MILLIS, k))
  {
    FieldIsClippedTally(cap, calls, k, (c: Counters) => c.requests, ONE);
    FieldIsClippedTally(cap, calls, k, (c: Counters) => c.successes, SUCCESS);
    FieldIsClippedTally(cap, calls, k, (c: Counters) => c.failures, FAILURE);
    FieldIsClippedTally(cap, calls, k, (c: Counters) => c.durationMs, MILLIS);
  }

  lemma TokensAreTallied(cap: nat, calls: seq<Call>, k: Key)
    requires k in Run(cap, calls)
    ensures Run(cap, calls)[k].inputTokens == Clip(TallyOf(cap, calls, INPUT, k))
    ensures Run(cap, calls)[k].outputTokens == Clip(TallyOf(cap, calls, OUTPUT, k))
    ensures Run(cap, calls)[k].cacheWriteTokens == Clip(TallyOf(cap, calls, CACHE_WRITE, k))
    ensures Run(cap, calls)[k].cacheReadTokens == Clip(TallyOf(cap, calls, CACHE_READ, k))
  {
    FieldIsClippedTally(cap, calls, k, (c: Counters) => c.inputTokens, INPUT);
    FieldIsClippedTally(cap, calls, k, (c: Counters) => c.outputTokens, OUTPUT);
    FieldIsClippedTally(cap, calls, k, (c: Counters) => c.cacheWriteTokens, CACHE_WRITE);
    FieldIsClippedTally(cap, calls, k, (c: Counters) => c.cacheReadTokens, CACHE_READ);
  }

  /** Every counter of a series is the exact total over the calls counted in it, clipped at 64 bits; the cost is not clipped. */
  lemma CountersAreClippedTallies(cap: nat, calls: seq<Call>, k: Key)
    requires k in Run(cap, calls)
    ensures Run(cap, calls)[k] == Counters(
              Clip(TallyOf(cap, calls, ONE, k)), Clip(TallyOf(cap, calls, SUCCESS, k)),
              Clip(TallyOf(cap, calls, FAILURE, k)), Clip(TallyOf(cap, calls, MILLIS, k)),
              Clip(TallyOf(cap, calls, INPUT, k)), Clip(TallyOf(cap, calls, OUTPUT, k)),
              Clip(TallyOf(cap, calls, CACHE_WRITE, k)), Clip(TallyOf(cap, calls, CACHE_READ, k)),
              CostTally(cap, calls, k))
  {
    OutcomesAreTallied(cap, calls, k);
    TokensAreTallied(cap, calls, k);
    CostIsTallied(cap, calls, k);
  }

  lemma {:induction false} TallyTotal(cap: nat, calls: seq<Call>, w: Weight)
    ensures Sum(Tally(cap, calls, w)) == Total(calls, w)
    decreases |calls|
  {
    if calls != [] {
      var before, call := calls[..|calls| - 1], calls[|calls| - 1];
      TallyTotal(cap, before, w);
      var t := Tally(cap, before, w);
      var k := Destination(cap, Run(cap, before).Keys, call.key);
      SumPut(t, k, (if k in t then t[k] else 0) + w(call));
    }
  }

  lemma {:induction false} TotalOnes(calls: seq<Call>)
    ensures Total(calls, ONE) == |calls|
    decreases |calls|
  {
    if calls != [] {
      TotalOnes(calls[..|calls| - 1]);
    }
  }

  ghost function Requests(s: Series): map<Key, int> { map k | k in s :: s[k].requests as int }

  lemma RequestsAreClipped(cap: nat, calls: seq<Call>)
    ensures var r, t := Requests(Run(cap, calls)), Tally(cap, calls, ONE);
            r.Keys == t.Keys && forall k :: k in r ==> t[k] >= 0 && r[k] == Clip(t[k])
  {
    var r, t := Requests(Run(cap, calls)), Tally(cap, calls, ONE);
    TallyKeys(cap, calls, ONE);
    forall k | k in r ensures r[k] == Clip(t[k]) {
      RequestsAreClippedTallies(cap, calls, k);
    }
  }

  lemma ClippedSum(r: map<Key, int>, t: map<Key, int>)
    requires r.Keys == t.Keys && forall k :: k in r ==> t[k] >= 0 && r[k] == Clip(t[k])
    ensures Sum(r) == Sum(t) <==> forall k :: k in t ==> t[k] <= U64_MAX
  {
    SumCompare(r, t);
    if forall k :: k in t ==> t[k] <= U64_MAX {
      assert r == t;
    } else {
      var k :| k in t && t[k] > U64_MAX;
      assert r[k] != t[k];
    }
  }

  /** No count is lost exactly when no series counted more calls than its counter can hold. */
  lemma NothingLostExactlyWhen(cap: nat, calls: seq<Call>)
    ensures Sum(Requests(Run(cap, calls))) == |calls| <==>
            forall k :: k in Tally(cap, calls, ONE) ==> Tally(cap, calls, ONE)[k] <= U64_MAX
  {
    RequestsAreClipped(cap, calls);
    ClippedSum(Requests(Run(cap, calls)), Tally(cap, calls, ONE));
    TallyTotal(cap, calls, ONE);
    TotalOnes(calls);
  }

  lemma TalliesFit(cap: nat, calls: seq<Call>)
    requires |calls| <= U64_MAX
    ensures forall k :: k in Tally(cap, calls, ONE) ==> Tally(cap, calls, ONE)[k] <= U64_MAX
  {
    TallyKeys(cap, calls, ONE);
    SumNonNegative(Tally(cap, calls, ONE));
    TallyTotal(cap, calls, ONE);
    TotalOnes(calls);
  }

  /** As long as calls can be counted at all, the series' requests add up to the calls, whatever the cap. */
  lemma CountsAddUp(cap: nat, calls: seq<Call>)
    requires |calls| <= U64_MAX
    ensures Sum(Requests(Run(cap, calls))) == |calls|
  {
    TalliesFit(cap, calls);
    NothingLostExactlyWhen(cap, calls);
  }

  // ---- the cap ----

  function Classes(calls: seq<Call>): set<string> {
    if calls == [] then {} else Classes(calls[..|calls| - 1]) + {calls[|calls| - 1].key.traffic}
  }

  /** The series opened while there was room for regular ones. */
  ghost function Regular(cap: nat, calls: seq<Call>): set<Key> {
    if calls == [] then {}
    else
      var known, k := Run(cap, calls[..|calls| - 1]).Keys, calls[|calls| - 1].key;
      Regular(cap, calls[..|calls| - 1]) + if k !in known && |known| < RegularLimit(cap) then {k} else {}
  }

  ghost function OverflowKeys(cap: nat, classes: set<string>): set<Key> {
    if OverflowSlots(cap) < TRAFFIC_CLASSES then {Key(OVERFLOW_PROVIDER, OVERFLOW_MODEL, OVERFLOW_TRAFFIC, false)}
    else set t | t in classes :: Key(OVERFLOW_PROVIDER, OVERFLOW_MODEL, t, false)
  }

  lemma {:induction false} RegularAreKept(cap: nat, calls: seq<Call>)
    ensures Regular(cap, calls) <= Run(cap, calls).Keys
    ensures |Regular(cap, calls)| <= RegularLimit(cap)
    ensures Run(cap, calls).Keys <= Regular(cap, calls) + OverflowKeys(cap, Classes(calls))
    decreases |calls|
  {
    if calls != [] {
      var before := calls[..|calls| - 1];
      RegularAreKept(cap, before);
      var known, k := Run(cap, before).Keys, calls[|calls| - 1].key;
      SubsetSize(Regular(cap, before), known);
      assert OverflowKeys(cap, Classes(before)) <= OverflowKeys(cap, Classes(calls));
      if k !in known && |known| >= RegularLimit(cap) {
        assert OverflowKey(cap, k) in OverflowKeys(cap, Classes(calls));
      }
    }
  }

  lemma {:induction false} OneKeyPerClass(cap: nat, classes: set<string>)
    ensures OverflowSlots(cap) == TRAFFIC_CLASSES ==> |OverflowKeys(cap, classes)| <= |classes|
    decreases |classes|
  {
    if classes != {} && OverflowSlots(cap) == TRAFFIC_CLASSES {
      var t :| t in classes;
      OneKeyPerClass(cap, classes - {t});
      assert OverflowKeys(cap, classes) ==
             OverflowKeys(cap, classes - {t}) + {Key(OVERFLOW_PROVIDER, OVERFLOW_MODEL, t, false)};
    }
  }

  lemma UnionSize(a: set<Key>, b: set<Key>)
    ensures |a + b| <= |a| + |b|
  {
    assert |a + b| == |a| + |b - a| by { assert a + b == a + (b - a); }
    SubsetSize(b - a, b);
  }

  lemma WithinCap(cap: nat, calls: seq<Call>)
    requires cap >= 2 && |Classes(calls)| <= TRAFFIC_CLASSES
    ensures |Run(cap, calls)| <= cap
  {
    var regular, overflow := Regular(cap, calls), OverflowKeys(cap, Classes(calls));
    RegularAreKept(cap, calls);
    OneKeyPerClass(cap, Classes(calls));
    UnionSize(regular, overflow);
    SubsetSize(Run(cap, calls).Keys, regular + overflow);
    assert |Run(cap, calls)| == |Run(cap, calls).Keys|;
  }

  /** The series there are after the calls, without their counters. */
  function Known(cap: nat, calls: seq<Call>): set<Key> {
    if calls == [] then {}
    else
      var before := Known(cap, calls[..|calls| - 1]);
      before + {Destination(cap, before, calls[|calls| - 1].key)}
  }

  lemma {:induction false} RunKeys(cap: nat, calls: seq<Call>)
    ensures Run(cap, calls).Keys == Known(cap, calls) && |Run(cap, calls)| == |Known(cap, calls)|
    decreases |calls|
  {
    if calls != [] {
      RunKeys(cap, calls[..|calls| - 1]);
    }
    assert |Run(cap, calls)| == |Run(cap, calls).Keys|;
  }

  /** Two calls of one traffic class for different models. */
  predicate Different(a: Call, b: Call) {
    a.key == Key("p", "a", "interactive", false) && b.key == Key("p", "b", "interactive", false)
  }

  lemma TwoSeries(cap: nat, a: Call, b: Call)
    requires cap < 4 && Different(a, b)
    ensures Known(cap, [a]) == (if cap == 0 then {OverflowKey(cap, a.key)} else {a.key})
    ensures Known(cap, [a, b]) == (if cap == 0 then {OverflowKey(cap, a.key)} else {a.key, OverflowKey(cap, b.key)})
    ensures |Known(cap, [a])| == 1 && (cap > 0 ==> |Known(cap, [a, b])| == 2)
  {
    assert [a][..0] == [] && [a, b][..1] == [a];
    assert Known(cap, []) == {};
    assert |Known(cap, [a])| == 1;
  }

  lemma OneClass(a: Call, b: Call)
    requires Different(a, b)
    ensures Classes([a]) == {"interactive"} && Classes([a, b]) == {"interactive"}
  {
    assert [a][..0] == [] && [a, b][..1] == [a];
  }

  lemma ExceededBelowTwo(cap: nat) returns (calls: seq<Call>)
    requires cap < 2
    ensures |Classes(calls)| <= TRAFFIC_CLASSES && |Run(cap, calls)| > cap
  {
    var usage := Usage(0, 0, 0, 0, 0.0);
    var a := Call(Key("p", "a", "interactive", false), true, 0, usage);
    var b := Call(Key("p", "b", "interactive", false), true, 0, usage);
    TwoSeries(cap, a, b);
    OneClass(a, b);
    calls := if cap == 0 then [a] else [a, b];
    RunKeys(cap, calls);
  }

  /** The number of series respects the cap, over at most three traffic classes, exactly when the cap is at least two. */
  lemma BoundedExactlyWhen(cap: nat)
    ensures (forall calls :: |Classes(calls)| <= TRAFFIC_CLASSES ==> |Run(cap, calls)| <= cap) <==> cap >= 2
  {
    if cap >= 2 {
      forall calls | |Classes(calls)| <= TRAFFIC_CLASSES ensures |Run(cap, calls)| <= cap {
        WithinCap(cap, calls);
      }
    } else {
      var calls := ExceededBelowTwo(cap);
    }
  }

  // ---- counts per traffic class ----

  ghost function OfClass(m: map<Key, int>, traffic: string): map<Key, int> {
    map k | k in m :: if k.traffic == traffic then m[k] else 0
  }

  function CallsOf(calls: seq<Call>, traffic: string): nat {
    if calls == [] then 0
    else CallsOf(calls[..|calls| - 1], traffic) + if calls[|calls| - 1].key.traffic == traffic then 1 else 0
  }

  ghost function RequestsOf(s: Series, traffic: string): int { Sum(OfClass(Requests(s), traffic)) }

  lemma {:induction false} TallyOfClass(cap: nat, calls: seq<Call>, traffic: string)
    requires cap >= 4
    ensures Sum(OfClass(Tally(cap, calls, ONE), traffic)) == CallsOf(calls, traffic)
    decreases |calls|
  {
    if calls == [] {
      assert OfClass(Tally(cap, calls, ONE), traffic) == map[];
    } else {
      var before, call := calls[..|calls| - 1], calls[|calls| - 1];
      TallyOfClass(cap, before, traffic);
      var t := Tally(cap, before, ONE);
      var k := Destination(cap, Run(cap, before).Keys, call.key);
      assert k.traffic == call.key.traffic;
      OneMoreOfClass(t, k, (if k in t then t[k] else 0) + 1, traffic);
    }
  }

  lemma OneMoreOfClass(t: map<Key, int>, k: Key, v: int, traffic: string)
    ensures Sum(OfClass(t[k := v], traffic)) ==
            Sum(OfClass(t, traffic)) + if k.traffic == traffic then v - (if k in t then t[k] else 0) else 0
  {
    assert OfClass(t[k := v], traffic) == OfClass(t, traffic)[k := if k.traffic == traffic then v else 0];
    SumPut(OfClass(t, traffic), k, if k.traffic == traffic then v else 0);
  }

  lemma ExactPerClass(cap: nat, calls: seq<Call>, traffic: string)
    requires cap >= 4 && |calls| <= U64_MAX
    ensures RequestsOf(Run(cap, calls), traffic) == CallsOf(calls, traffic)
  {
    var r, t := Requests(Run(cap, calls)), Tally(cap, calls, ONE);
    TallyKeys(cap, calls, ONE);
    TalliesFit(cap, calls);
    forall k | k in r ensures r[k] == t[k] {
      RequestsAreClippedTallies(cap, calls, k);
    }
    assert r == t;
    TallyOfClass(cap, calls, traffic);
  }

  /** Below a cap of four the second call's class is lost: only the first call is found under it, if that. */
  lemma NotExactBelowFour(cap: nat, a: Call, b: Call)
    requires cap < 4 && Different(a, b)
    ensures RequestsOf(Run(cap, [a, b]), "interactive") < CallsOf([a, b], "interactive")
  {
    var calls := [a, b];
    TwoCalls(a, b);
    TwoSeries(cap, a, b);
    RunKeys(cap, calls);
    RunKeys(cap, [a]);
    var m := OfClass(Requests(Run(cap, calls)), "interactive");
    SumSingle(m, a.key);
    if a.key in m {
      FirstCountedOnce(cap, a, b);
    }
  }

  lemma TwoCalls(a: Call, b: Call)
    requires Different(a, b)
    ensures CallsOf([a, b], "interactive") == 2
  {
    assert [a, b][..1] == [a] && [a][..0] == [];
    assert CallsOf([a], "interactive") == 1;
  }

  lemma FirstCountedOnce(cap: nat, a: Call, b: Call)
    requires 0 < cap < 4 && Different(a, b)
    ensures a.key in Run(cap, [a, b]) && Run(cap, [a, b])[a.key].requests == 1
  {
    TwoSeries(cap, a, b);
    RunKeys(cap, [a]);
    assert [a, b][..1] == [a] && [a][..0] == [] && Run(cap, []) == map[];
    var one := Run(cap, [a]);
    assert a.key in one && one[a.key].requests == 1;
    assert Destination(cap, one.Keys, b.key) == OverflowKey(cap, b.key);
  }

  lemma InexactBelowFour(cap: nat) returns (calls: seq<Call>)
    requires cap < 4
    ensures |calls| == 2 && RequestsOf(Run(cap, calls), "interactive") != CallsOf(calls, "interactive")
  {
    var usage := Usage(0, 0, 0, 0, 0.0);
    var a := Call(Key("p", "a", "interactive", false), true, 0, usage);
    var b := Call(Key("p", "b", "interactive", false), true, 0, usage);
    NotExactBelowFour(cap, a, b);
    calls := [a, b];
  }

  /** Requests are exact per traffic class, for every run that can be counted, exactly when the cap is at least four. */
  lemma ExactPerClassExactlyWhen(cap: nat)
    ensures (forall calls, traffic :: |calls| <= U64_MAX ==> RequestsOf(Run(cap, calls), traffic) == CallsOf(calls, traffic)) <==> cap >= 4
  {
    if cap >= 4 {
      forall calls, traffic | |calls| <= U64_MAX ensures RequestsOf(Run(cap, calls), traffic) == CallsOf(calls, traffic) {
        ExactPerClass(cap, calls, traffic);
      }
    } else {
      var calls := InexactBelowFour(cap);
    }
  }
}
