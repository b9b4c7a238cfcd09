/** Round-robin selection: with an unchanged set of usable credentials every window of selections uses each once. */
module CredentialFairness {
  import opened Common
  import opened KeyOrder
  import opened CredentialState
  import opened CredentialRuns

  ghost predicate DistinctIds(cs: seq<Credential>) {
    forall i, j :: 0 <= i < j < |cs| ==> cs[i].id != cs[j].id
  }

  function IndexOf(cs: seq<Credential>, id: string): (i: nat)
    ensures i <= |cs|
    ensures i < |cs| ==> cs[i].id == id
    ensures forall k :: 0 <= k < i ==> cs[k].id != id
  {
    if cs == [] || cs[0].id == id then 0 else 1 + IndexOf(cs[1..], id)
  }

  /** One past the active credential, wrapping around; the first one if the active id is not in the list. */
  function NextIndex(cs: seq<Credential>, current: Option<string>): (i: nat)
    requires cs != []
    ensures i < |cs|
  {
    if current.None? || IndexOf(cs, current.value) == |cs| then 0 else Step(IndexOf(cs, current.value), |cs|)
  }

  /** One place further round a circle of n places. */
  function Step(i: nat, n: nat): (r: nat)
    requires i < n
    ensures r < n
  {
    if i + 1 == n then 0 else i + 1
  }

  function Around(i: nat, k: nat, n: nat): (r: nat)
    requires i < n
    ensures r < n
    decreases k
  {
    if k == 0 then i else Around(Step(i, n), k - 1, n)
  }

  lemma {:induction false} AfterIs(cs: seq<Credential>, id: string)
    ensures After(cs, id) == if IndexOf(cs, id) == |cs| then [] else cs[IndexOf(cs, id) + 1..]
    decreases |cs|
  {
    if cs != [] && cs[0].id != id {
      AfterIs(cs[1..], id);
    }
  }

  lemma {:induction false} FirstOtherIs(cs: seq<Credential>, id: string)
    requires cs != []
    ensures cs[0].id != id ==> FirstOther(cs, id) == Some(cs[0])
    ensures |cs| == 1 && cs[0].id == id ==> FirstOther(cs, id) == None
  {
    assert |cs| == 1 ==> cs[1..] == [];
  }

  /** The iterator chain picks the next credential of the circle. */
  lemma RoundRobinIsCircular(cs: seq<Credential>, current: Option<string>)
    requires cs != [] && DistinctIds(cs)
    ensures RoundRobin(cs, current) == Some(cs[NextIndex(cs, current)])
  {
    if current.Some? {
      var id, i, n := current.value, IndexOf(cs, current.value), |cs|;
      var tail := After(cs, id);
      AfterIs(cs, id);
      FirstOtherIs(tail + cs, id);
      if i + 1 < n {
        assert (tail + cs)[0] == cs[i + 1];
      } else {
        assert tail == [] && tail + cs == cs;
        assert i + 1 == n && n > 1 ==> cs[0].id != cs[i].id;
      }
    }
  }

  // ---- the available credentials ----

  lemma {:induction false} UsableDistinct(p: Pools, env: Environment, provider: string, cs: seq<Credential>, now: nat)
    requires DistinctIds(cs)
    ensures DistinctIds(UsableOf(p, env, provider, cs, now))
    decreases |cs|
  {
    if cs != [] {
      var rest := UsableOf(p, env, provider, cs[1..], now);
      UsableDistinct(p, env, provider, cs[1..], now);
      UsableAre(p, env, provider, cs[1..], now);
      forall j | 0 <= j < |rest| ensures rest[j].id != cs[0].id {
        assert rest[j] in cs[1..];
      }
    }
  }

  lemma AvailableDistinct(p: Pools, env: Environment, provider: string, now: nat)
    requires PoolsOk(p)
    ensures DistinctIds(Available(p, env, provider, now))
  {
    var cs := CredentialsOf(p, provider);
    assert PoolOk(cs, ActiveId(p, provider));
    var keys := Listing(cs.Keys);
    ListingOk(cs.Keys);
    assert forall i :: 0 <= i < |keys| ==> keys[i] in cs && Values(cs)[i].id == keys[i];
    UsableDistinct(p, env, provider, Values(cs), now);
  }

  lemma {:induction false} UsableSame(p: Pools, q: Pools, env: Environment, provider: string, cs: seq<Credential>, now: nat)
    requires q.cooldowns == p.cooldowns
    ensures UsableOf(q, env, provider, cs, now) == UsableOf(p, env, provider, cs, now)
    decreases |cs|
  {
    if cs != [] {
      UsableSame(p, q, env, provider, cs[1..], now);
    }
  }

  // ---- runs of selections ----

  ghost function Selections(p: Pools, env: Environment, provider: string, nows: seq<nat>): seq<Option<Credential>>
    decreases |nows|
  {
    if nows == [] then []
    else [Choice(p, env, provider, nows[0])] + Selections(Select(p, env, provider, nows[0]), env, provider, nows[1..])
  }

  /** The provider is in round-robin mode and the same credentials are usable at all these times. */
  ghost predicate Steady(p: Pools, env: Environment, provider: string, nows: seq<nat>, available: seq<Credential>) {
    && provider in p.credentials && Mode(p, provider) == ROUND_ROBIN
    && forall k :: 0 <= k < |nows| ==> Available(p, env, provider, nows[k]) == available
  }

  lemma StaysSteady(p: Pools, env: Environment, provider: string, nows: seq<nat>, available: seq<Credential>, id: string)
    requires Steady(p, env, provider, nows, available) && nows != []
    ensures Steady(WithActive(p, provider, Some(id)), env, provider, nows[1..], available)
  {
    var q := WithActive(p, provider, Some(id));
    forall k | 0 <= k < |nows| - 1 ensures Available(q, env, provider, nows[1..][k]) == available {
      UsableSame(p, q, env, provider, Values(CredentialsOf(p, provider)), nows[k + 1]);
    }
  }

  lemma NextAfter(cs: seq<Credential>, i: nat)
    requires i < |cs| && DistinctIds(cs)
    ensures NextIndex(cs, Some(cs[i].id)) == Step(i, |cs|)
  {
    var k := IndexOf(cs, cs[i].id);
    assert k == i;
  }

  /** One selection takes the next place of the circle and leaves everything else as it was. */
  lemma OneSelection(p: Pools, env: Environment, provider: string, nows: seq<nat>, available: seq<Credential>)
    requires PoolsOk(p) && Steady(p, env, provider, nows, available) && available != [] && nows != []
    ensures var s := NextIndex(available, ActiveId(p, provider));
            var next := Select(p, env, provider, nows[0]);
            && Choice(p, env, provider, nows[0]) == Some(available[s])
            && PoolsOk(next)
            && Steady(next, env, provider, nows[1..], available)
            && NextIndex(available, ActiveId(next, provider)) == Step(s, |available|)
  {
    var s := NextIndex(available, ActiveId(p, provider));
    AvailableDistinct(p, env, provider, nows[0]);
    RoundRobinIsCircular(available, ActiveId(p, provider));
    assert Choice(p, env, provider, nows[0]) == Some(available[s]);
    ChoiceOk(p, env, provider, nows[0]);
    SelectOk(p, env, provider, nows[0]);
    StaysSteady(p, env, provider, nows, available, available[s].id);
    NextAfter(available, s);
  }

  /** The k-th selection is k places round the circle from the first. */
  lemma {:induction false} SelectionsGoRound(p: Pools, env: Environment, provider: string, nows: seq<nat>, available: seq<Credential>, k: nat)
    requires PoolsOk(p) && Steady(p, env, provider, nows, available) && available != [] && k < |nows|
    ensures |Selections(p, env, provider, nows)| == |nows|
    ensures Selections(p, env, provider, nows)[k] ==
            Some(available[Around(NextIndex(available, ActiveId(p, provider)), k, |available|)])
    decreases |nows|
  {
    OneSelection(p, env, provider, nows, available);
    var next := Select(p, env, provider, nows[0]);
    if |nows| > 1 {
      SelectionsGoRound(next, env, provider, nows[1..], available, if k > 0 then k - 1 else 0);
    }
  }

  lemma {:induction false} AroundSplits(i: nat, j: nat, k: nat, n: nat)
    requires i < n
    ensures Around(i, j + k, n) == Around(Around(i, j, n), k, n)
    decreases j
  {
    if j > 0 {
      AroundSplits(Step(i, n), j - 1, k, n);
    }
  }

  /** Less than one turn from i ends k places on, minus n if that passes the end. */
  lemma {:induction false} AroundWithin(i: nat, k: nat, n: nat)
    requires i < n && k < n
    ensures Around(i, k, n) == if i + k < n then i + k else i + k - n
    decreases k
  {
    if k > 0 {
      AroundWithin(Step(i, n), k - 1, n);
    }
  }

  /** In the n selections after the first `from`, the credential occurs, and at one place only. */
  ghost predicate OnceIn(chosen: seq<Option<Credential>>, from: nat, upto: nat, c: Credential) {
    && upto <= |chosen|
    && exists k :: from <= k < upto && chosen[k] == Some(c) && forall m :: from <= m < upto && chosen[m] == Some(c) ==> m == k
  }

  /**
   Fairness: whatever was active before, including an id that is not usable, any n consecutive selections out of n
   usable credentials return each of them exactly once.
   */
  lemma RoundRobinIsFair(p: Pools, env: Environment, provider: string, nows: seq<nat>, available: seq<Credential>, from: nat, i: nat)
    requires PoolsOk(p) && Steady(p, env, provider, nows, available)
    requires i < |available| && from + |available| <= |nows|
    ensures |Selections(p, env, provider, nows)| == |nows|
    ensures OnceIn(Selections(p, env, provider, nows), from, from + |available|, available[i])
  {
    var n, s := |available|, NextIndex(available, ActiveId(p, provider));
    var chosen := Selections(p, env, provider, nows);
    SelectionsGoRound(p, env, provider, nows, available, 0);
    var a := Around(s, from, n);
    var k := from + if a <= i then i - a else i + n - a;
    forall m | from <= m < from + n ensures chosen[m] == Some(available[i]) <==> m == k {
      SelectedAt(p, env, provider, nows, available, from, m, i);
    }
    assert chosen[k] == Some(available[i]);
  }

  lemma SelectedAt(p: Pools, env: Environment, provider: string, nows: seq<nat>, available: seq<Credential>, from: nat, m: nat, i: nat)
    requires PoolsOk(p) && Steady(p, env, provider, nows, available)
    requires i < |available| && from <= m < from + |available| && m < |nows|
    ensures |Selections(p, env, provider, nows)| == |nows|
    ensures var a := Around(NextIndex(available, ActiveId(p, provider)), from, |available|);
            Selections(p, env, provider, nows)[m] == Some(available[i]) <==>
              m == from + if a <= i then i - a else i + |available| - a
  {
    var n, s := |available|, NextIndex(available, ActiveId(p, provider));
    SelectionsGoRound(p, env, provider, nows, available, m);
    AvailableDistinct(p, env, provider, nows[m]);
    SameOnlyIfSamePlace(available, Around(s, m, n), i);
    AroundHits(s, from, m, i, n);
  }

  lemma SameOnlyIfSamePlace(cs: seq<Credential>, x: nat, i: nat)
    requires DistinctIds(cs) && x < |cs| && i < |cs|
    ensures cs[x] == cs[i] <==> x == i
  {
  }

  lemma AroundHits(s: nat, from: nat, m: nat, i: nat, n: nat)
    requires s < n && i < n && from <= m < from + n
    ensures var a := Around(s, from, n); Around(s, m, n) == i <==> m == from + if a <= i then i - a else i + n - a
  {
    AroundSplits(s, from, m - from, n);
    AroundWithin(Around(s, from, n), m - from, n);
  }
}
