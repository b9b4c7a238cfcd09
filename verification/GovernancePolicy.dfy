/** Project policies: validation, the mode they allow, and which attempts leave the machine. */
module GovernancePolicy {
  import opened Common
  import opened RoutingPolicy
  import opened Text

  const MAX_LIST: nat := 256
  const MAX_ENTRY: nat := 160
  const MAX_TENANT: nat := 128

  datatype Tenant = Tenant(organization: string, project: string, environment: string)

  datatype Policy = Policy(
    tenant: Tenant,
    maximumMode: HybridMode,
    defaultClassification: DataClassification,
    allowedProviders: seq<string>,
    allowedModels: seq<string>,
    allowedRegions: seq<string>,
    allowedApiVersions: seq<string>,
    cloudEnabled: bool,
    updatedBy: string,
    updatedAt: nat)

  function FailClosed(tenant: Tenant): Policy {
    Policy(tenant, LocalStrict, Unknown, [], [], ["local"], [], false, "builtin-fail-closed", 0)
  }

  // ---- tenants and their keys ----

  predicate TenantChar(c: char) {
    'a' <= c <= 'z' || 'A' <= c <= 'Z' || '0' <= c <= '9' || c == '.' || c == '_' || c == ':' || c == '-'
  }

  predicate ValidIdentifier(s: string) {
    s != "" && |s| <= MAX_TENANT && forall i :: 0 <= i < |s| ==> TenantChar(s[i])
  }

  predicate ValidTenant(t: Tenant) {
    ValidIdentifier(t.organization) && ValidIdentifier(t.project) && ValidIdentifier(t.environment)
  }

  function PolicyKey(t: Tenant): string { t.organization + "/" + t.project + "/" + t.environment }

  predicate NoSlash(s: string) { forall i :: 0 <= i < |s| ==> s[i] != '/' }

  lemma SplitsOnce(a: string, b: string, a': string, b': string)
    requires NoSlash(a) && NoSlash(a') && a + "/" + b == a' + "/" + b'
    ensures a == a' && b == b'
  {
    var s := a + "/" + b;
    assert s[|a|] == '/' && s[|a'|] == '/';
    assert |a| == |a'|;
    assert s[..|a|] == a && s[..|a|] == a';
    assert s[|a| + 1..] == b && s[|a| + 1..] == b';
  }

  /** No two valid tenants share a policy key. */
  lemma KeysDiffer(t: Tenant, u: Tenant)
    requires ValidTenant(t) && ValidTenant(u) && PolicyKey(t) == PolicyKey(u)
    ensures t == u
  {
    var x, y := t.project + "/" + t.environment, u.project + "/" + u.environment;
    assert PolicyKey(t) == t.organization + "/" + x;
    assert PolicyKey(u) == u.organization + "/" + y;
    SplitsOnce(t.organization, x, u.organization, y);
    SplitsOnce(t.project, t.environment, u.project, u.environment);
  }

  // ---- validation ----

  /** A list of rules is short and each entry is non-blank and within its byte limit. */
  predicate ListOk(bytes: string -> nat, list: seq<string>) {
    |list| <= MAX_LIST && forall i :: 0 <= i < |list| ==> !IsBlank(list[i]) && bytes(list[i]) <= MAX_ENTRY
  }

  function Lists(p: Policy): seq<seq<string>> {
    [p.allowedProviders, p.allowedModels, p.allowedRegions, p.allowedApiVersions]
  }

  predicate ValidPolicy(bytes: string -> nat, p: Policy) {
    && ValidTenant(p.tenant)
    && (!p.cloudEnabled ==> p.maximumMode == LocalStrict)
    && forall i :: 0 <= i < |Lists(p)| ==> ListOk(bytes, Lists(p)[i])
  }

  method CheckList(bytes: string -> nat, list: seq<string>) returns (ok: bool)
    ensures ok == ListOk(bytes, list)
  {
    if |list| > MAX_LIST {
      return false;
    }
    for i := 0 to |list|
      invariant forall k :: 0 <= k < i ==> !IsBlank(list[k]) && bytes(list[k]) <= MAX_ENTRY
    {
      if IsBlank(list[i]) || bytes(list[i]) > MAX_ENTRY {
        return false;
      }
    }
    ok := true;
  }

  method ValidatePolicy(bytes: string -> nat, p: Policy) returns (ok: bool)
    ensures ok == ValidPolicy(bytes, p)
  {
    var ids := [p.tenant.organization, p.tenant.project, p.tenant.environment];
    for i := 0 to |ids|
      invariant forall k :: 0 <= k < i ==> ValidIdentifier(ids[k])
    {
      if !ValidIdentifier(ids[i]) {
        return false;
      }
    }
    assert ids[0] == p.tenant.organization && ids[1] == p.tenant.project && ids[2] == p.tenant.environment;
    if !p.cloudEnabled && p.maximumMode != LocalStrict {
      return false;
    }
    for i := 0 to |Lists(p)|
      invariant forall k :: 0 <= k < i ==> ListOk(bytes, Lists(p)[k])
    {
      var fine := CheckList(bytes, Lists(p)[i]);
      if !fine {
        return false;
      }
    }
    ok := true;
  }

  // ---- modes ----

  function EffectiveMode(p: Policy, requested: Option<HybridMode>, c: DataClassification): Option<HybridMode> {
    if ForcesLocal(c) then Some(LocalStrict)
    else RestrictTo(if requested.Some? then requested.value else p.maximumMode, p.maximumMode)
  }

  // ---- attempts ----

  /** A resolved attempt. Whether its host is local, its region and API version come from the provider's URL. */
  datatype Attempt = Attempt(providerId: string, model: string, hostIsLocal: bool, region: string, apiVersion: string)

  predicate IsCloud(a: Attempt) {
    !("local_" <= a.providerId || "cpa_" <= a.providerId || a.providerId == "ollama" || a.hostIsLocal)
  }

  function Filter(attempts: seq<Attempt>, cloud: bool): seq<Attempt> {
    if attempts == [] then []
    else
      var rest := Filter(attempts[..|attempts| - 1], cloud);
      var last := attempts[|attempts| - 1];
      if IsCloud(last) == cloud then rest + [last] else rest
  }

  /** Each side keeps its own order; the mode decides whether cloud attempts come last, first or not at all. */
  function Ordered(attempts: seq<Attempt>, mode: HybridMode): seq<Attempt> {
    var local, cloud := Filter(attempts, false), Filter(attempts, true);
    match mode
    case LocalStrict => local
    case LocalFirst => local + cloud
    case Balanced => local + cloud
    case CloudFirst => cloud + local
  }

  method OrderAttempts(attempts: seq<Attempt>, mode: HybridMode) returns (ordered: seq<Attempt>)
    ensures ordered == Ordered(attempts, mode)
  {
    var local: seq<Attempt> := [];
    var cloud: seq<Attempt> := [];
    for i := 0 to |attempts|
      invariant local == Filter(attempts[..i], false) && cloud == Filter(attempts[..i], true)
    {
      assert attempts[..i + 1][..i] == attempts[..i];
      if IsCloud(attempts[i]) {
        cloud := cloud + [attempts[i]];
      } else {
        local := local + [attempts[i]];
      }
    }
    assert attempts[..|attempts|] == attempts;
    match mode {
      case LocalStrict => ordered := local;
      case LocalFirst => ordered := local + cloud;
      case Balanced => ordered := local + cloud;
      case CloudFirst => ordered := cloud + local;
    }
  }

  lemma {:induction false} FilterSides(attempts: seq<Attempt>, cloud: bool)
    ensures forall a :: a in Filter(attempts, cloud) <==> a in attempts && IsCloud(a) == cloud
    decreases |attempts|
  {
    if attempts != [] {
      var n := |attempts| - 1;
      FilterSides(attempts[..n], cloud);
      assert attempts == attempts[..n] + [attempts[n]];
    }
  }

  lemma {:induction false} FilterCounts(attempts: seq<Attempt>)
    ensures multiset(Filter(attempts, false)) + multiset(Filter(attempts, true)) == multiset(attempts)
    decreases |attempts|
  {
    if attempts != [] {
      var n := |attempts| - 1;
      FilterCounts(attempts[..n]);
      assert attempts == attempts[..n] + [attempts[n]];
    }
  }

  /** A cloud attempt is tried exactly when the mode is not strict and there is one; local ones are always tried. */
  lemma OrderingKeepsExactly(attempts: seq<Attempt>, mode: HybridMode, a: Attempt)
    ensures a in Ordered(attempts, mode) <==> a in attempts && (IsCloud(a) ==> mode != LocalStrict)
    ensures mode != LocalStrict ==> multiset(Ordered(attempts, mode)) == multiset(attempts)
  {
    FilterSides(attempts, false);
    FilterSides(attempts, true);
    FilterCounts(attempts);
  }

  /** Within one side the order in which attempts were given is kept. */
  lemma {:induction false} OrderKept(attempts: seq<Attempt>, cloud: bool, prefix: nat)
    requires prefix <= |attempts|
    ensures Filter(attempts[..prefix], cloud) <= Filter(attempts, cloud)
    decreases |attempts|
  {
    if prefix < |attempts| {
      var n := |attempts| - 1;
      OrderKept(attempts[..n], cloud, prefix);
      assert attempts[..n][..prefix] == attempts[..prefix];
    } else {
      assert attempts[..prefix] == attempts;
    }
  }

  /**
   Under a valid policy, sensitive or unclassified data and cloud-disabled projects reach no cloud attempt; otherwise
   the requested mode is honoured up to the project's maximum and cloud attempts are reached exactly when it is not strict.
   */
  lemma EgressExactlyWhen(bytes: string -> nat, p: Policy, requested: Option<HybridMode>, c: DataClassification, attempts: seq<Attempt>)
    requires ValidPolicy(bytes, p) || p == FailClosed(p.tenant)
    ensures var mode := EffectiveMode(p, requested, c);
            && ((ForcesLocal(c) || !p.cloudEnabled) && mode.Some? ==> forall a :: a in Ordered(attempts, mode.value) ==> !IsCloud(a))
            && (mode.None? <==> !ForcesLocal(c) && requested.Some? && EgressRank(requested.value) > EgressRank(p.maximumMode))
            && (mode.Some? && (exists a :: a in attempts && IsCloud(a)) ==>
                  ((exists a :: a in Ordered(attempts, mode.value) && IsCloud(a)) <==>
                   !ForcesLocal(c) && (if requested.Some? then requested.value else p.maximumMode) != LocalStrict))
  {
    var mode := EffectiveMode(p, requested, c);
    if mode.Some? {
      forall a ensures a in Ordered(attempts, mode.value) <==> a in attempts && (IsCloud(a) ==> mode.value != LocalStrict) {
        OrderingKeepsExactly(attempts, mode.value, a);
      }
    }
  }

  // ---- the policy's own lists ----

  /** A rule is the exact name, everything, or a prefix ending in a star. */
  predicate RuleMatches(rule: string, value: string) {
    rule == "*" || rule == value || (rule != "" && rule[|rule| - 1] == '*' && rule[..|rule| - 1] <= value)
  }

  predicate Allows(rules: seq<string>, value: string) {
    rules == [] || exists i :: 0 <= i < |rules| && RuleMatches(rules[i], value)
  }

  predicate Permitted(p: Policy, a: Attempt) {
    && (IsCloud(a) ==> p.cloudEnabled)
    && Allows(p.allowedProviders, a.providerId)
    && Allows(p.allowedModels, a.model)
    && Allows(p.allowedRegions, a.region)
    && Allows(p.allowedApiVersions, a.apiVersion)
  }

  method Matches(rules: seq<string>, value: string) returns (found: bool)
    ensures found <==> exists i :: 0 <= i < |rules| && RuleMatches(rules[i], value)
  {
    for i := 0 to |rules|
      invariant forall k :: 0 <= k < i ==> !RuleMatches(rules[k], value)
    {
      if RuleMatches(rules[i], value) {
        return true;
      }
    }
    found := false;
  }

  method EnforceAttempt(p: Policy, a: Attempt) returns (ok: bool)
    ensures ok == Permitted(p, a)
  {
    if IsCloud(a) && !p.cloudEnabled {
      return false;
    }
    var checks := [(p.allowedProviders, a.providerId), (p.allowedModels, a.model),
                   (p.allowedRegions, a.region), (p.allowedApiVersions, a.apiVersion)];
    for i := 0 to |checks|
      invariant forall k :: 0 <= k < i ==> Allows(checks[k].0, checks[k].1)
    {
      if checks[i].0 != [] {
        var found := Matches(checks[i].0, checks[i].1);
        if !found {
          assert !Allows(checks[i].0, checks[i].1);
          return false;
        }
      }
    }
    assert Allows(checks[0].0, checks[0].1) && Allows(checks[1].0, checks[1].1);
    assert Allows(checks[2].0, checks[2].1) && Allows(checks[3].0, checks[3].1);
    ok := true;
  }
}
