/** The hard budget limit: what is refused, and for how long an account stays within its limit. Nothing here needs other balances to fit. */
module LedgerBudget {
  import opened Common
  import opened LedgerState
  import opened LedgerRuns

  ghost predicate WithinLimit(l: Ledger, t: Tenant) {
    var a := AccountOf(l, t);
    a.limit.Some? ==> a.settled + a.reserved <= a.limit.value
  }

  /** Limits as the budget endpoint accepts them, below the largest 64-bit value. */
  ghost predicate LimitBelowMax(a: Account) {
    a.limit.Some? ==> 0 <= a.limit.value < I64_MAX
  }

  // ---- what every account satisfies in every run ----

  /** The settled balance is an amount, the reserved one a 64-bit number, the limit an amount if there is one. */
  ghost predicate InRange(a: Account) {
    0 <= a.settled <= I64_MAX && Fits64(a.reserved) && (a.limit.Some? ==> 0 <= a.limit.value <= I64_MAX)
  }

  lemma {:induction false} ReapOnlyFrees(l: Ledger, order: seq<string>, t: Tenant)
    requires InRange(AccountOf(l, t))
    ensures var a, a' := AccountOf(l, t), AccountOf(ReapAttempts(l, order).0, t);
            a'.limit == a.limit && a'.settled == a.settled && a'.reserved <= a.reserved && InRange(a')
    decreases |order|
  {
    if order != [] {
      var (l1, reply) := Release(Marked(l, order[0]), order[0]);
      if reply.Ok? {
        ReapOnlyFrees(l1, order[1..], t);
      }
    }
  }

  lemma RangeKept(ttl: nat, l: Ledger, now: int, op: Op, t: Tenant)
    requires InRange(AccountOf(l, t))
    ensures InRange(AccountOf(Apply(ttl, l, now, op), t))
  {
    if op.Sweep? {
      ReapOnlyFrees(l, op.order, t);
    }
  }

  lemma {:induction false} InRangeThroughout(ttl: nat, l: Ledger, run: seq<Timed>, t: Tenant)
    requires InRange(AccountOf(l, t))
    ensures InRange(AccountOf(Exec(ttl, l, run), t))
    decreases |run|
  {
    if run != [] {
      RangeKept(ttl, l, run[0].now, run[0].op, t);
      InRangeThroughout(ttl, Apply(ttl, l, run[0].now, run[0].op), run[1..], t);
    }
  }

  // ---- refusal ----

  /**
   In every run, overflowing or not: a reservation is refused for budget exactly when it exceeds the available balance that
   the account report shows; and this is so exactly when the limit is below the 64-bit maximum or the sum fits.
   */
  lemma RefusedExactlyBeyondAvailable(ttl: nat, run: seq<Timed>, h: RequestHandle, attempt: string, cost: Microunits, expires: int)
    requires var l := Exec(ttl, EMPTY_LEDGER, run); InScopeOpen(l, h, attempt) && AccountOf(l, h.tenant).limit.Some?
    ensures var l := Exec(ttl, EMPTY_LEDGER, run);
            var a := AccountOf(l, h.tenant);
            && InRange(a)
            && ((BeginAttempt(l, h, attempt, cost, expires).1 != Ok <==> cost > BudgetReport(a).available.value) <==>
                (a.limit.value < I64_MAX || Saturate(a.settled + a.reserved) + cost <= I64_MAX))
  {
    InRangeThroughout(ttl, EMPTY_LEDGER, run, h.tenant);
  }

  /** At the largest limit nothing is ever refused, whatever the report shows. */
  lemma NothingRefusedAtMax(l: Ledger, h: RequestHandle, attempt: string, cost: Microunits, expires: int)
    requires InScopeOpen(l, h, attempt) && AccountOf(l, h.tenant).limit == Some(I64_MAX)
    ensures BeginAttempt(l, h, attempt, cost, expires).1 == Ok
  {
  }

  /** In every run an admitted reservation leaves its account within a limit below the maximum, whatever it looked like before. */
  lemma AdmittedWithinLimit(ttl: nat, run: seq<Timed>, h: RequestHandle, attempt: string, cost: Microunits, expires: int)
    requires LimitBelowMax(AccountOf(Exec(ttl, EMPTY_LEDGER, run), h.tenant))
    ensures var (l', reply) := BeginAttempt(Exec(ttl, EMPTY_LEDGER, run), h, attempt, cost, expires);
            reply == Ok ==> WithinLimit(l', h.tenant)
  {
    InRangeThroughout(ttl, EMPTY_LEDGER, run, h.tenant);
  }

  // ---- staying within the limit ----

  /** What an operation must satisfy, checked beforehand, for one tenant to stay within its limit. */
  ghost predicate KeepsWithin(l: Ledger, op: Op, t: Tenant) {
    var a := AccountOf(l, t);
    match op
    case EndAttempt(h, outcome) =>
      (&& OpenInScope(l, h) && h.tenant == t && h.id in l.reservations && l.reservations[h.id].state.Open? && a.limit.Some?
       && Fits64(a.reserved - l.reservations[h.id].reserved) && Fits64(a.settled + outcome.cost)) ==>
        a.settled + a.reserved - l.reservations[h.id].reserved + outcome.cost <= a.limit.value
    case Adjust(u, delta) =>
      (u == t && a.limit.Some? && 0 <= a.settled + delta <= I64_MAX) ==> a.settled + a.reserved + delta <= a.limit.value
    case SetLimit(u, limit) => (u == t && limit.Some?) ==> a.settled + a.reserved <= limit.value
    case _ => true
  }

  lemma EndWithin(l: Ledger, h: AttemptHandle, outcome: Outcome, t: Tenant)
    requires InRange(AccountOf(l, t)) && WithinLimit(l, t)
    ensures WithinLimit(FinalizeAttempt(l, h, outcome).0, t) <==> KeepsWithin(l, EndAttempt(h, outcome), t)
  {
  }

  lemma OpenWithin(l: Ledger, h: RequestHandle, attempt: string, cost: Microunits, expires: int, t: Tenant)
    requires InRange(AccountOf(l, t)) && WithinLimit(l, t) && LimitBelowMax(AccountOf(l, t))
    ensures WithinLimit(BeginAttempt(l, h, attempt, cost, expires).0, t)
  {
  }

  lemma OthersWithin(ttl: nat, l: Ledger, now: int, op: Op, t: Tenant)
    requires InRange(AccountOf(l, t)) && WithinLimit(l, t)
    requires !op.OpenAttempt? && !op.EndAttempt? && !op.Sweep?
    ensures WithinLimit(Apply(ttl, l, now, op), t) <==> KeepsWithin(l, op, t)
  {
  }

  /** From an account within a limit below the maximum, an operation leaves it within exactly under that condition. */
  lemma StaysWithinExactlyWhen(ttl: nat, l: Ledger, now: int, op: Op, t: Tenant)
    requires InRange(AccountOf(l, t)) && WithinLimit(l, t) && LimitBelowMax(AccountOf(l, t))
    ensures WithinLimit(Apply(ttl, l, now, op), t) <==> KeepsWithin(l, op, t)
  {
    match op
    case OpenAttempt(h, attempt, cost) => OpenWithin(l, h, attempt, cost, now + ttl, t);
    case EndAttempt(h, outcome) => EndWithin(l, h, outcome, t);
    case Sweep(order) => ReapOnlyFrees(l, order, t);
    case _ => OthersWithin(ttl, l, now, op, t);
  }

  /** An operation that cannot raise a tenant's spend above what it reserved, nor lower its limit. */
  ghost predicate Prudent(l: Ledger, op: Op, t: Tenant) {
    match op
    case EndAttempt(h, outcome) => h.tenant == t && h.id in l.reservations ==> outcome.cost <= l.reservations[h.id].reserved
    case Adjust(u, delta) => u == t ==> delta <= 0
    case SetLimit(u, limit) =>
      u == t ==> limit.None? || (limit.value < I64_MAX && AccountOf(l, t).limit.Some? && AccountOf(l, t).limit.value <= limit.value)
    case _ => true
  }

  ghost predicate PrudentThroughout(ttl: nat, l: Ledger, run: seq<Timed>, t: Tenant)
    decreases |run|
  {
    run == [] || (Prudent(l, run[0].op, t) && PrudentThroughout(ttl, Apply(ttl, l, run[0].now, run[0].op), run[1..], t))
  }

  lemma LimitAfter(ttl: nat, l: Ledger, now: int, op: Op, t: Tenant)
    requires InRange(AccountOf(l, t))
    ensures AccountOf(Apply(ttl, l, now, op), t).limit
            == if op.SetLimit? && op.t == t then op.limit else AccountOf(l, t).limit
  {
    if op.Sweep? {
      ReapOnlyFrees(l, op.order, t);
    }
  }

  lemma PrudentKeepsWithin(l: Ledger, op: Op, t: Tenant)
    requires WithinLimit(l, t) && Prudent(l, op, t)
    ensures KeepsWithin(l, op, t)
  {
  }

  /**
   The hard limit over whole runs: once an account is within its limit it stays there for as long as no attempt of the
   tenant settles above its reservation, no adjustment is positive and the limit is not lowered, whatever else overflows.
   */
  lemma {:induction false} CapThroughout(ttl: nat, l: Ledger, run: seq<Timed>, t: Tenant)
    requires InRange(AccountOf(l, t)) && WithinLimit(l, t) && LimitBelowMax(AccountOf(l, t)) && PrudentThroughout(ttl, l, run, t)
    ensures WithinLimit(Exec(ttl, l, run), t)
    decreases |run|
  {
    if run != [] {
      var Timed(now, op) := run[0];
      PrudentKeepsWithin(l, op, t);
      StaysWithinExactlyWhen(ttl, l, now, op, t);
      LimitAfter(ttl, l, now, op, t);
      RangeKept(ttl, l, now, op, t);
      CapThroughout(ttl, Apply(ttl, l, now, op), run[1..], t);
    }
  }

  /** After any run at all, a reservation admitted under a limit below the maximum starts a stretch of prudent operations within the limit. */
  lemma CapFromAdmission(ttl: nat, before: seq<Timed>, now: int, h: RequestHandle, attempt: string, cost: Microunits, after: seq<Timed>)
    requires LimitBelowMax(AccountOf(Exec(ttl, EMPTY_LEDGER, before), h.tenant))
    requires var (l', reply) := BeginAttempt(Exec(ttl, EMPTY_LEDGER, before), h, attempt, cost, now + ttl);
             reply == Ok && PrudentThroughout(ttl, l', after, h.tenant)
    ensures var l' := BeginAttempt(Exec(ttl, EMPTY_LEDGER, before), h, attempt, cost, now + ttl).0;
            WithinLimit(Exec(ttl, l', after), h.tenant)
  {
    var l := Exec(ttl, EMPTY_LEDGER, before);
    var l' := BeginAttempt(l, h, attempt, cost, now + ttl).0;
    AdmittedWithinLimit(ttl, before, h, attempt, cost, now + ttl);
    InRangeThroughout(ttl, EMPTY_LEDGER, before, h.tenant);
    CapThroughout(ttl, l', after, h.tenant);
  }

  // ---- the report ----

  lemma ScaleUp(a: int, b: int, d: int)
    requires a <= b && 0 <= d
    ensures a * d <= b * d
  {
  }

  lemma QuotientAtLeast(x: int, d: int, k: int)
    requires 0 <= x && 0 < d
    ensures x / d >= k <==> x >= k * d
  {
    var q, r := x / d, x % d;
    assert x == q * d + r;
    if q >= k {
      ScaleUp(k, q, d);
    } else {
      ScaleUp(q + 1, k, d);
      assert (q + 1) * d == q * d + d;
    }
  }

  /** The consumed balance is so far below zero that its share of the limit leaves the 64-bit range. */
  predicate FarBelowZero(consumed: int, limit: int) { (0 - consumed) * 10000 >= (I64_MAX + 2) * limit }

  lemma FullShare(consumed: int, limit: int)
    requires 0 <= consumed && 0 < limit
    ensures UtilizationBps(consumed, limit) >= 10000 <==> consumed >= limit
  {
    var x := consumed * 10000;
    QuotientAtLeast(x, limit, 10000);
    assert x >= 10000 * limit <==> consumed >= limit;
  }

  lemma NegativeShare(consumed: int, limit: int)
    requires consumed < 0 && 0 < limit
    ensures UtilizationBps(consumed, limit) >= 10000 <==> FarBelowZero(consumed, limit)
  {
    var x := (0 - consumed) * 10000;
    assert consumed * 10000 == 0 - x;
    QuotientAtLeast(x, limit, I64_MAX + 2);
    QuotientAtLeast(x, limit, 0);
  }

  /**
   The hard-limit flag is raised exactly when something is consumed and the limit is used up, or when the balance is so
   far below zero that the utilisation cannot be represented.
   */
  lemma HardLimitFlag(a: Account)
    requires InRange(a) && a.limit.Some?
    ensures var consumed, limit := Saturate(a.reserved + a.settled), a.limit.value;
            BudgetReport(a).hardLimit <==>
              if limit == 0 then consumed != 0 else consumed >= limit || FarBelowZero(consumed, limit)
  {
    var consumed, limit := Saturate(a.reserved + a.settled), a.limit.value;
    if limit > 0 {
      if consumed >= 0 {
        FullShare(consumed, limit);
        ScaleUp(0, limit, I64_MAX + 2);
      } else {
        NegativeShare(consumed, limit);
      }
    }
  }

  /** On a balance that is not negative, which is every balance of a tenant whose books are conserved, the flag is plain. */
  lemma HardLimitFlagOfAmounts(a: Account)
    requires InRange(a) && a.limit.Some? && 0 <= a.reserved
    ensures var consumed, limit := Saturate(a.reserved + a.settled), a.limit.value;
            BudgetReport(a).hardLimit <==> consumed >= limit && (limit > 0 || consumed > 0)
  {
    HardLimitFlag(a);
  }

  // ---- a reservation beyond the reported balance ----

  /** A reachable ledger whose report shows nothing available, and which admits a reservation all the same. */
  lemma AdmittedBeyondAvailable(ttl: nat) returns (run: seq<Timed>)
    ensures Runs(ttl, EMPTY_LEDGER, 0, run)
    ensures var l := Exec(ttl, EMPTY_LEDGER, run);
            && AccountOf(l, TENANT).limit == Some(I64_MAX)
            && BudgetReport(AccountOf(l, TENANT)).available == Some(0)
            && BeginAttempt(l, REQUEST, "a", 1, ttl).1 == Ok
  {
    var limit, adjust, open := Timed(0, SetLimit(TENANT, Some(I64_MAX))), Timed(0, Adjust(TENANT, I64_MAX)), Timed(0, OpenRequest(REQUEST, None, "f"));
    run := [];
    OneMore(ttl, EMPTY_LEDGER, 0, run, limit);
    run := run + [limit];
    assert Exec(ttl, EMPTY_LEDGER, run) == EMPTY_LEDGER.(accounts := map[TENANT := Account(Some(I64_MAX), 0, 0, 1)]);
    OneMore(ttl, EMPTY_LEDGER, 0, run, adjust);
    run := run + [adjust];
    var l := Exec(ttl, EMPTY_LEDGER, run);
    assert AccountOf(l, TENANT) == Account(Some(I64_MAX), 0, I64_MAX, 2) && l.requests == map[] && l.attempts == map[] && l.reservations == map[];
    assert !KeyUsed(l, TENANT, None);
    OneMore(ttl, EMPTY_LEDGER, 0, run, open);
    run := run + [open];
    assert InScopeOpen(Exec(ttl, EMPTY_LEDGER, run), REQUEST, "a");
  }
}
