/** The startup checks that make resolution total. */
module ResolutionChecks {
  import opened Text
  import opened Resolution

  const MAX_ORDER: nat := 256

  datatype Issue =
    | NoProviders
    | EmptyOrder
    | LongOrder
    | MissingDefault(id: string)
    | MissingInOrder(id: string)
    | BlankAlias(alias: string)
    | BlankTarget(alias: string)
    | Unresolvable(alias: string, error: Result)

  function AliasIssues(c: Config, alias: string): seq<Issue> {
    if alias !in c.aliases then []
    else if IsBlank(alias) then [BlankAlias(alias)]
    else if IsBlank(c.aliases[alias]) then [BlankTarget(alias)]
    else
      var r := Resolve(c, alias);
      if r.Ok? then [] else [Unresolvable(alias, r)]
  }

  function OrderIssues(c: Config, order: seq<string>): seq<Issue> {
    if order == [] then []
    else
      var last := order[|order| - 1];
      OrderIssues(c, order[..|order| - 1]) + if last in c.providers then [] else [MissingInOrder(last)]
  }

  function Gather(check: string -> seq<Issue>, visited: seq<string>): seq<Issue> {
    if visited == [] then [] else Gather(check, visited[..|visited| - 1]) + check(visited[|visited| - 1])
  }

  function AliasCheck(c: Config): string -> seq<Issue> { alias => AliasIssues(c, alias) }

  function FirstIssues(c: Config): seq<Issue> {
    (if c.providers == map[] then [NoProviders] else [])
    + (if c.order == [] then [EmptyOrder] else if |c.order| > MAX_ORDER then [LongOrder] else [])
    + (if c.defaultProvider in c.providers then [] else [MissingDefault(c.defaultProvider)])
  }

  /** The sequence visits every alias once. */
  ghost predicate Visits(c: Config, visited: seq<string>) {
    && (forall a :: a in visited <==> a in c.aliases)
    && forall i, j :: 0 <= i < j < |visited| ==> visited[i] != visited[j]
  }

  /** The errors found when the aliases are visited in that order. */
  ghost predicate Found(c: Config, visited: seq<string>, issues: seq<Issue>) {
    Visits(c, visited) && issues == Gather(AliasCheck(c), visited)
  }

  /** The errors of the routing checks, for whichever order the map yields its aliases in. */
  method ValidationIssues(c: Config) returns (issues: seq<Issue>)
    ensures exists found, visited :: Found(c, visited, found) && issues == FirstIssues(c) + OrderIssues(c, c.order) + found
  {
    issues := [];
    if c.providers == map[] {
      issues := issues + [NoProviders];
    }
    if c.order == [] {
      issues := issues + [EmptyOrder];
    } else if |c.order| > MAX_ORDER {
      issues := issues + [LongOrder];
    }
    if c.defaultProvider !in c.providers {
      issues := issues + [MissingDefault(c.defaultProvider)];
    }
    assert issues == FirstIssues(c);
    for i := 0 to |c.order|
      invariant issues == FirstIssues(c) + OrderIssues(c, c.order[..i])
    {
      assert c.order[..i + 1][..i] == c.order[..i];
      if c.order[i] !in c.providers {
        issues := issues + [MissingInOrder(c.order[i])];
      }
    }
    assert c.order[..|c.order|] == c.order;
    var found := CheckAliases(c);
    issues := issues + found;
  }

  method CheckAliases(c: Config) returns (issues: seq<Issue>)
    ensures exists visited :: Found(c, visited, issues)
  {
    issues := [];
    ghost var visited: seq<string> := [];
    var rest := c.aliases.Keys;
    while rest != {}
      invariant rest <= c.aliases.Keys
      invariant forall a :: a in visited <==> a in c.aliases && a !in rest
      invariant forall i, j :: 0 <= i < j < |visited| ==> visited[i] != visited[j]
      invariant issues == Gather(AliasCheck(c), visited)
    {
      var alias :| alias in rest;
      ghost var longer := visited + [alias];
      assert longer[..|visited|] == visited;
      assert Gather(AliasCheck(c), longer) == Gather(AliasCheck(c), visited) + AliasIssues(c, alias);
      rest := rest - {alias};
      visited := longer;
      if IsBlank(alias) {
        issues := issues + [BlankAlias(alias)];
        continue;
      }
      if IsBlank(c.aliases[alias]) {
        issues := issues + [BlankTarget(alias)];
        continue;
      }
      var r := Resolve(c, alias);
      if !r.Ok? {
        issues := issues + [Unresolvable(alias, r)];
      }
    }
    assert Found(c, visited, issues);
  }

  // ---- totality ----

  /** What resolution itself needs of the checks. */
  ghost predicate Resolvable(c: Config) {
    c.defaultProvider in c.providers && forall a :: a in c.aliases && Trimmed(a) && a != "" ==> Resolve(c, a).Ok?
  }

  lemma ResultIsConfigured(c: Config, name: string, depth: nat)
    requires depth <= MAX_DEPTH
    ensures var r := ResolveInner(c, name, depth);
            r.Ok? ==> r.resolved.providerId in c.providers && r.resolved.provider == c.providers[r.resolved.providerId]
    decreases MAX_DEPTH - depth
  {
    HopUnfolds(c, name, depth);
    if Hops(c, name) && depth < MAX_DEPTH {
      ResultIsConfigured(c, c.aliases[name], depth + 1);
    }
  }

  /** Every model name, whatever it is, resolves to a configured provider exactly when the default exists and the aliases resolve. */
  lemma TotalExactlyWhen(c: Config)
    ensures Resolvable(c) <==> forall name :: Resolve(c, name).Ok?
    ensures forall name :: Resolve(c, name).Ok? ==>
              Resolve(c, name).resolved.providerId in c.providers
              && Resolve(c, name).resolved.provider == c.providers[Resolve(c, name).resolved.providerId]
  {
    forall name | Resolve(c, name).Ok?
      ensures Resolve(c, name).resolved.providerId in c.providers
      ensures Resolve(c, name).resolved.provider == c.providers[Resolve(c, name).resolved.providerId]
    {
      ResultIsConfigured(c, Trim(name), 0);
    }
    if Resolvable(c) {
      forall name ensures Resolve(c, name).Ok? {
        ResolvesName(c, name);
      }
    } else {
      TrimIsTrimmed("");
      assert c.defaultProvider !in c.providers ==> !Resolve(c, "").Ok?;
    }
  }

  lemma ResolvesName(c: Config, name: string)
    requires Resolvable(c)
    ensures Resolve(c, name).Ok?
  {
    var t := Trim(name);
    TrimIsTrimmed(name);
    HopUnfolds(c, t, 0);
    if t in c.aliases && t != "" {
      assert Resolve(c, t) == Resolve(c, name);
      assert Resolve(c, t).Ok?;
    }
  }

  lemma BothEmpty(a: seq<Issue>, b: seq<Issue>)
    requires a + b == []
    ensures a == [] && b == []
  {
    assert |a + b| == 0;
  }

  lemma {:induction false} NothingGathered(check: string -> seq<Issue>, visited: seq<string>, i: nat)
    requires Gather(check, visited) == [] && i < |visited|
    ensures check(visited[i]) == []
    decreases |visited|
  {
    var n := |visited| - 1;
    BothEmpty(Gather(check, visited[..n]), check(visited[n]));
    if i < n {
      NothingGathered(check, visited[..n], i);
    }
  }

  /** A configuration in which the checks find nothing resolves every model name to a configured provider. */
  lemma NoIssuesMeansTotal(c: Config, found: seq<Issue>, visited: seq<string>, name: string)
    requires Found(c, visited, found) && FirstIssues(c) + OrderIssues(c, c.order) + found == []
    ensures var r := Resolve(c, name);
            r.Ok? && r.resolved.providerId in c.providers && r.resolved.provider == c.providers[r.resolved.providerId]
  {
    assert FirstIssues(c) == [] && found == [];
    forall a | a in c.aliases && Trimmed(a) && a != "" ensures Resolve(c, a).Ok? {
      var i :| 0 <= i < |visited| && visited[i] == a;
      NothingGathered(AliasCheck(c), visited, i);
      assert AliasIssues(c, a) == [];
      TrimIsTrimmed(a);
    }
    TotalExactlyWhen(c);
  }

  // ---- which provider serves a plain name ----

  lemma {:induction false} FindExactIs(c: Config, order: seq<string>, model: string)
    ensures match FindExact(c, order, model)
            case None => forall i :: 0 <= i < |order| && order[i] in c.providers ==> model !in c.providers[order[i]].models
            case Some(id) => exists i :: First(c, order, model, i) && order[i] == id
    decreases |order|
  {
    if order != [] {
      var rest := order[1..];
      if order[0] in c.providers && model in c.providers[order[0]].models {
        assert First(c, order, model, 0);
      } else {
        FindExactIs(c, rest, model);
        if FindExact(c, rest, model).Some? {
          var i :| First(c, rest, model, i) && rest[i] == FindExact(c, rest, model).value;
          assert order[i + 1] == rest[i];
          assert forall k :: 0 < k < i + 1 ==> order[k] == rest[k - 1];
          assert First(c, order, model, i + 1);
        } else {
          assert forall k :: 0 < k < |order| ==> order[k] == rest[k - 1];
        }
      }
    }
  }

  /** The i-th provider of the order is the first one that lists the model. */
  ghost predicate First(c: Config, order: seq<string>, model: string, i: int) {
    && 0 <= i < |order| && order[i] in c.providers && model in c.providers[order[i]].models
    && forall k :: 0 <= k < i && order[k] in c.providers ==> model !in c.providers[order[k]].models
  }

  /** A plain name that some provider lists goes unchanged to the first such provider in the routing order. */
  lemma ListedModelsGoToTheirProvider(c: Config, name: string, i: int)
    requires First(c, c.order, Trim(name), i) && Trim(name) != "" && Trim(name) !in c.aliases
    requires ParseProviderModel(c, Trim(name)).None?
    ensures Resolve(c, name) == Ok(Resolved(c.order[i], c.providers[c.order[i]], Trim(name)))
  {
    FindExactIs(c, c.order, Trim(name));
  }

  ghost predicate ListedNowhere(c: Config, model: string) {
    forall i :: 0 <= i < |c.order| && c.order[i] in c.providers ==> model !in c.providers[c.order[i]].models
  }

  /** The i-th provider of the order is the first one with a prefix of the model. */
  ghost predicate FirstByPrefix(c: Config, order: seq<string>, model: string, i: int) {
    && 0 <= i < |order| && order[i] in c.providers && HasPrefix(c.providers[order[i]].prefixes, model)
    && forall k :: 0 <= k < i && order[k] in c.providers ==> !HasPrefix(c.providers[order[k]].prefixes, model)
  }

  lemma {:induction false} FindPrefixIs(c: Config, order: seq<string>, model: string)
    ensures match FindPrefix(c, order, model)
            case None => forall i :: !FirstByPrefix(c, order, model, i)
            case Some(id) => exists i :: FirstByPrefix(c, order, model, i) && order[i] == id
    decreases |order|
  {
    if order != [] {
      var rest := order[1..];
      if order[0] in c.providers && HasPrefix(c.providers[order[0]].prefixes, model) {
        assert FirstByPrefix(c, order, model, 0);
      } else {
        FindPrefixIs(c, rest, model);
        assert forall k :: 0 < k < |order| ==> order[k] == rest[k - 1];
        if FindPrefix(c, rest, model).Some? {
          var i :| FirstByPrefix(c, rest, model, i) && rest[i] == FindPrefix(c, rest, model).value;
          assert FirstByPrefix(c, order, model, i + 1);
        } else {
          forall i ensures !FirstByPrefix(c, order, model, i) {
            assert !FirstByPrefix(c, rest, model, i - 1);
          }
        }
      }
    }
  }

  /** A plain name that nobody lists goes unchanged to the first provider with a matching prefix. */
  lemma PrefixedModelsGoToTheirProvider(c: Config, name: string, i: int)
    requires Trim(name) != "" && Trim(name) !in c.aliases && ParseProviderModel(c, Trim(name)).None?
    requires ListedNowhere(c, Trim(name)) && FirstByPrefix(c, c.order, Trim(name), i)
    ensures Resolve(c, name) == Ok(Resolved(c.order[i], c.providers[c.order[i]], Trim(name)))
  {
    var t := Trim(name);
    FindExactIs(c, c.order, t);
    FindPrefixIs(c, c.order, t);
    var k :| FirstByPrefix(c, c.order, t, k) && c.order[k] == FindPrefix(c, c.order, t).value;
    assert k == i;
  }

  lemma {:induction false} SplitsAtColon(id: string, model: string)
    requires ':' !in id
    ensures SplitOnce(id + ":" + model, ':') == SplitAt(id, model)
  {
    var s := id + ":" + model;
    if id == "" {
      assert s == ":" + model && s[1..] == model;
    } else {
      SplitsAtColon(id[1..], model);
      assert s[1..] == id[1..] + ":" + model && s[0] == id[0];
      assert id == [id[0]] + id[1..];
    }
  }

  /** A name written provider:model goes to that provider and model, whatever the aliases say. */
  lemma QualifiedNamesResolveToThemselves(c: Config, id: string, model: string)
    requires id in c.providers && ':' !in id && Trimmed(id + ":" + model) && Trimmed(model) && model != ""
    ensures Resolve(c, id + ":" + model) == Ok(Resolved(id, c.providers[id], model))
  {
    SplitsAtColon(id, model);
    TrimIsTrimmed(id + ":" + model);
    TrimIsTrimmed(model);
  }
}
