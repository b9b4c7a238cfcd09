/** Model resolution: from a requested name, through aliases, to a configured provider. */
module Resolution {
  import opened Common
  import opened Text

  const MAX_DEPTH: nat := 8

  datatype Provider = Provider(
    displayName: string,
    models: seq<string>,
    prefixes: seq<string>,
    defaultModel: string,
    passthrough: bool)

  datatype Config = Config(
    providers: map<string, Provider>,
    order: seq<string>,
    defaultProvider: string,
    aliases: map<string, string>)

  datatype Resolved = Resolved(providerId: string, provider: Provider, model: string)

  datatype Result = Ok(resolved: Resolved) | TooDeep | NotFound(id: string)

  function ForProvider(c: Config, id: string, model: Option<string>): Result {
    if id !in c.providers then NotFound(id)
    else
      var p := c.providers[id];
      Ok(Resolved(id, p, if model.Some? && !IsBlank(model.value) then model.value else p.defaultModel))
  }

  /** A name of the form provider:model whose provider is configured. */
  function ParseProviderModel(c: Config, name: string): Option<(string, string)> {
    match SplitOnce(name, ':')
    case NoSplit => None
    case SplitAt(id, model) => if id in c.providers then Some((id, Trim(model))) else None
  }

  function FindExact(c: Config, order: seq<string>, model: string): Option<string> {
    if order == [] then None
    else if order[0] in c.providers && model in c.providers[order[0]].models then Some(order[0])
    else FindExact(c, order[1..], model)
  }

  predicate HasPrefix(prefixes: seq<string>, model: string) {
    exists i :: 0 <= i < |prefixes| && prefixes[i] <= model
  }

  function FindPrefix(c: Config, order: seq<string>, model: string): Option<string> {
    if order == [] then None
    else if order[0] in c.providers && HasPrefix(c.providers[order[0]].prefixes, model) then Some(order[0])
    else FindPrefix(c, order[1..], model)
  }

  /** A name that is no alias: the provider that lists it, then one with a matching prefix, then the default. */
  function Unaliased(c: Config, name: string): Result {
    var exact, prefix := FindExact(c, c.order, name), FindPrefix(c, c.order, name);
    if exact.Some? && exact.value in c.providers then Ok(Resolved(exact.value, c.providers[exact.value], name))
    else if prefix.Some? && prefix.value in c.providers then Ok(Resolved(prefix.value, c.providers[prefix.value], name))
    else if c.defaultProvider !in c.providers then NotFound(c.defaultProvider)
    else
      var p := c.providers[c.defaultProvider];
      Ok(Resolved(c.defaultProvider, p, if p.passthrough then name else p.defaultModel))
  }

  function ResolveInner(c: Config, name: string, depth: nat): Result
    decreases MAX_DEPTH + 1 - depth, 1
  {
    if depth > MAX_DEPTH then TooDeep
    else if name == "" then ForProvider(c, c.defaultProvider, None)
    else
      var direct := ParseProviderModel(c, name);
      if direct.Some? then ForProvider(c, direct.value.0, Some(direct.value.1))
      else if name in c.aliases then ResolveTarget(c, name, c.aliases[name], depth + 1)
      else Unaliased(c, name)
  }

  function ResolveTarget(c: Config, alias: string, target: string, depth: nat): Result
    requires depth <= MAX_DEPTH + 1
    decreases MAX_DEPTH + 1 - depth, 2
  {
    match SplitOnce(target, ':')
    case SplitAt(id, model) => if id !in c.providers then NotFound(id) else ForProvider(c, id, Some(model))
    case NoSplit =>
      if target in c.providers then
        var p := c.providers[target];
        Ok(Resolved(target, p, if alias in p.models then alias else p.defaultModel))
      else ResolveInner(c, target, depth)
  }

  function Resolve(c: Config, name: string): Result { ResolveInner(c, Trim(name), 0) }

  // ---- the walk without a bound ----

  /** The alias of a name leads to another name, rather than to a provider. */
  predicate Hops(c: Config, name: string) {
    && name != "" && ParseProviderModel(c, name).None? && name in c.aliases
    && SplitOnce(c.aliases[name], ':').NoSplit? && c.aliases[name] !in c.providers
  }

  /** The name after n hops, if the walk gets that far. */
  function After(c: Config, name: string, n: nat): Option<string>
    decreases n
  {
    if n == 0 then Some(name) else if Hops(c, name) then After(c, c.aliases[name], n - 1) else None
  }

  predicate EndsAfter(c: Config, name: string, n: nat) {
    After(c, name, n).Some? && !Hops(c, After(c, name, n).value)
  }

  /** What a name that does not hop resolves to. */
  function Direct(c: Config, name: string): Result
    requires !Hops(c, name)
  {
    if name == "" then ForProvider(c, c.defaultProvider, None)
    else
      var direct := ParseProviderModel(c, name);
      if direct.Some? then ForProvider(c, direct.value.0, Some(direct.value.1))
      else if name !in c.aliases then Unaliased(c, name)
      else
        match SplitOnce(c.aliases[name], ':')
        case SplitAt(id, model) => ForProvider(c, id, Some(model))
        case NoSplit =>
          var p := c.providers[c.aliases[name]];
          Ok(Resolved(c.aliases[name], p, if name in p.models then name else p.defaultModel))
  }

  lemma {:induction false} HopUnfolds(c: Config, name: string, depth: nat)
    requires depth <= MAX_DEPTH
    ensures ResolveInner(c, name, depth) ==
            if Hops(c, name) then ResolveInner(c, c.aliases[name], depth + 1) else Direct(c, name)
  {
  }

  lemma {:induction false} EndsInTime(c: Config, name: string, n: nat, depth: nat)
    requires EndsAfter(c, name, n) && depth + n <= MAX_DEPTH
    ensures ResolveInner(c, name, depth) == Direct(c, After(c, name, n).value)
    decreases n
  {
    HopUnfolds(c, name, depth);
    if n > 0 {
      EndsInTime(c, c.aliases[name], n - 1, depth + 1);
    }
  }

  lemma {:induction false} TooManyHops(c: Config, name: string, depth: nat)
    requires depth <= MAX_DEPTH + 1 && After(c, name, MAX_DEPTH + 1 - depth).Some?
    ensures ResolveInner(c, name, depth) == TooDeep
    decreases MAX_DEPTH + 1 - depth
  {
    if depth <= MAX_DEPTH {
      HopUnfolds(c, name, depth);
      TooManyHops(c, c.aliases[name], depth + 1);
    }
  }

  /** A walk either ends within the bound or gets past it. */
  lemma {:induction false} EndsOrContinues(c: Config, name: string, n: nat)
    ensures After(c, name, n + 1).Some? || exists k :: 0 <= k <= n && EndsAfter(c, name, k)
    decreases n
  {
    if Hops(c, name) {
      if n > 0 {
        EndsOrContinues(c, c.aliases[name], n - 1);
        if After(c, c.aliases[name], n).None? {
          var k :| 0 <= k <= n - 1 && EndsAfter(c, c.aliases[name], k);
          assert EndsAfter(c, name, k + 1);
        }
      } else {
        assert After(c, c.aliases[name], 0).Some?;
      }
    } else {
      assert EndsAfter(c, name, 0);
    }
  }

  lemma {:induction false} EndsOnce(c: Config, name: string, m: nat, n: nat)
    requires EndsAfter(c, name, n) && m > n
    ensures After(c, name, m).None?
    decreases n
  {
    if n > 0 {
      EndsOnce(c, c.aliases[name], m - 1, n - 1);
    }
  }

  /**
   Bounded resolution against the unbounded walk, on every alias map: if the walk ends after at most eight hops the two
   agree, and otherwise, for longer and for endless walks alike, the result is the depth error.
   */
  lemma AgreesExactlyUpToEightHops(c: Config, name: string)
    ensures forall n: nat :: n <= MAX_DEPTH && EndsAfter(c, Trim(name), n) ==>
              Resolve(c, name) == Direct(c, After(c, Trim(name), n).value) && Resolve(c, name) != TooDeep
    ensures Resolve(c, name) == TooDeep <==> forall n: nat :: n <= MAX_DEPTH ==> !EndsAfter(c, Trim(name), n)
  {
    var t := Trim(name);
    forall n: nat | n <= MAX_DEPTH && EndsAfter(c, t, n)
      ensures Resolve(c, name) == Direct(c, After(c, t, n).value) && Resolve(c, name) != TooDeep
    {
      EndsInTime(c, t, n, 0);
    }
    EndsOrContinues(c, t, MAX_DEPTH);
    if After(c, t, MAX_DEPTH + 1).Some? {
      TooManyHops(c, t, 0);
    }
  }

  // ---- endless walks are the cyclic ones ----

  lemma {:induction false} AfterAdds(c: Config, name: string, m: nat, n: nat)
    requires After(c, name, m).Some?
    ensures After(c, name, m + n) == After(c, After(c, name, m).value, n)
    decreases m
  {
    if m > 0 {
      AfterAdds(c, c.aliases[name], m - 1, n);
    }
  }

  /** A walk that comes back to a name it has passed never ends, so resolution reports the depth error. */
  lemma {:induction false} CyclesNeverEnd(c: Config, name: string, period: nat, n: nat)
    requires period > 0 && After(c, name, period) == Some(name)
    ensures After(c, name, n).Some? && !EndsAfter(c, name, n)
    decreases n
  {
    if n < period {
      if EndsAfter(c, name, n) {
        EndsOnce(c, name, period, n);
      }
      if After(c, name, n).None? {
        Shorter(c, name, n, period);
      }
    } else {
      AfterAdds(c, name, period, n - period);
      CyclesNeverEnd(c, name, period, n - period);
    }
  }

  lemma {:induction false} Shorter(c: Config, name: string, m: nat, n: nat)
    requires m <= n && After(c, name, n).Some?
    ensures After(c, name, m).Some?
    decreases m
  {
    if m > 0 {
      Shorter(c, c.aliases[name], m - 1, n - 1);
    }
  }

  lemma CycleIsTooDeep(c: Config, name: string, period: nat)
    requires period > 0 && After(c, Trim(name), period) == Some(Trim(name))
    ensures Resolve(c, name) == TooDeep
  {
    CyclesNeverEnd(c, Trim(name), period, MAX_DEPTH + 1);
    TooManyHops(c, Trim(name), 0);
  }

  /** The names passed on the way, each an alias. */
  function Passed(c: Config, name: string, n: nat): (s: set<string>)
    requires After(c, name, n).Some?
    ensures s <= c.aliases.Keys
    decreases n
  {
    if n == 0 then {} else {name} + Passed(c, c.aliases[name], n - 1)
  }

  lemma {:induction false} PassedHas(c: Config, name: string, n: nat, x: string)
    requires After(c, name, n).Some? && x in Passed(c, name, n)
    ensures exists k: nat :: k < n && After(c, name, k) == Some(x)
    decreases n
  {
    if x == name {
      assert After(c, name, 0) == Some(x);
    } else {
      PassedHas(c, c.aliases[name], n - 1, x);
      var k: nat :| k < n - 1 && After(c, c.aliases[name], k) == Some(x);
      assert After(c, name, k + 1) == Some(x);
    }
  }

  /** A walk that ends passes no alias twice. */
  lemma {:induction false} PassesOnce(c: Config, name: string, n: nat)
    requires EndsAfter(c, name, n)
    ensures |Passed(c, name, n)| == n
    decreases n
  {
    if n > 0 {
      var next := c.aliases[name];
      PassesOnce(c, next, n - 1);
      if name in Passed(c, next, n - 1) {
        PassedHas(c, next, n - 1, name);
        var k: nat :| k < n - 1 && After(c, next, k) == Some(name);
        CyclesNeverEnd(c, name, k + 1, n);
      }
    }
  }

  /** With at most eight aliases the bound never cuts a walk short: the depth error means the walk is endless. */
  lemma FewAliasesAreExact(c: Config, name: string)
    requires |c.aliases| <= MAX_DEPTH
    ensures Resolve(c, name) == TooDeep <==> forall n: nat :: !EndsAfter(c, Trim(name), n)
  {
    AgreesExactlyUpToEightHops(c, name);
    forall n: nat | EndsAfter(c, Trim(name), n) ensures n <= MAX_DEPTH {
      PassesOnce(c, Trim(name), n);
      SubsetSize(Passed(c, Trim(name), n), c.aliases.Keys);
      assert |c.aliases.Keys| == |c.aliases|;
    }
  }
}
