/** Conservation and replay of budget balances, tenant by tenant: what one tenant's overflow does not touch. */
module LedgerConservation {
  import opened Common
  import opened LedgerState
  import opened LedgerRuns
  import opened Sums

  // ---- totals over the reservation table ----

  ghost function OpenPart(r: Reservation, t: Tenant): int {
    if r.tenant == t && r.state.Open? then r.reserved else 0
  }

  ghost function SettledPart(r: Reservation, t: Tenant): int {
    if r.tenant == t && r.state.Settled? then r.settled else 0
  }

  ghost function OpenParts(rs: map<string, Reservation>, t: Tenant): map<string, int> {
    map id | id in rs :: OpenPart(rs[id], t)
  }

  ghost function SettledParts(rs: map<string, Reservation>, t: Tenant): map<string, int> {
    map id | id in rs :: SettledPart(rs[id], t)
  }

  ghost function OpenTotal(rs: map<string, Reservation>, t: Tenant): int { Sum(OpenParts(rs, t)) }

  ghost function SettledTotal(rs: map<string, Reservation>, t: Tenant): int { Sum(SettledParts(rs, t)) }

  lemma TotalsAfterPut(rs: map<string, Reservation>, id: string, r: Reservation, t: Tenant)
    ensures OpenTotal(rs[id := r], t) == OpenTotal(rs, t) + OpenPart(r, t) - (if id in rs then OpenPart(rs[id], t) else 0)
    ensures SettledTotal(rs[id := r], t) == SettledTotal(rs, t) + SettledPart(r, t) - (if id in rs then SettledPart(rs[id], t) else 0)
  {
    SumPut(OpenParts(rs, t), id, OpenPart(r, t));
    assert OpenParts(rs[id := r], t) == OpenParts(rs, t)[id := OpenPart(r, t)];
    SumPut(SettledParts(rs, t), id, SettledPart(r, t));
    assert SettledParts(rs[id := r], t) == SettledParts(rs, t)[id := SettledPart(r, t)];
  }

  // ---- folds over the event log ----

  datatype Balance = Balance(reserved: int, settled: int, adjusted: int)

  ghost function Replay(events: seq<Event>, t: Tenant): Balance {
    if events == [] then Balance(0, 0, 0)
    else
      var b := Replay(events[..|events| - 1], t);
      var e := events[|events| - 1];
      if e.tenant != t then b
      else Balance(b.reserved + e.reservedDelta, b.settled + e.settledDelta,
                   b.adjusted + if e.kind.Adjustment? then e.settledDelta else 0)
  }

  lemma ReplayAppended(events: seq<Event>, e: Event, t: Tenant)
    ensures var b := Replay(events, t);
            Replay(events + [e], t) == if e.tenant != t then b
              else Balance(b.reserved + e.reservedDelta, b.settled + e.settledDelta,
                           b.adjusted + if e.kind.Adjustment? then e.settledDelta else 0)
  {
    assert (events + [e])[..|events|] == events;
  }

  // ---- what a tenant's books must satisfy ----

  /** A tenant's balances equal the reservation totals and the replayed event log, and are amounts. */
  ghost predicate BalancedFor(l: Ledger, t: Tenant) {
    var a := AccountOf(l, t);
    && a.reserved == OpenTotal(l.reservations, t) == Replay(l.events, t).reserved
    && a.settled == SettledTotal(l.reservations, t) + Replay(l.events, t).adjusted == Replay(l.events, t).settled
    && 0 <= a.reserved <= I64_MAX && 0 <= a.settled <= I64_MAX
  }

  /** The log tells exactly the end that each of the tenant's reservations came to. */
  ghost predicate LoggedFor(l: Ledger, t: Tenant) {
    forall id :: id in l.reservations && l.reservations[id].tenant == t ==>
      && Mentions(l.events, id, SettledEvent) == (if l.reservations[id].state.Settled? then 1 else 0)
      && Mentions(l.events, id, ReleasedEvent) == (if l.reservations[id].state.Released? then 1 else 0)
  }

  ghost predicate ConservedFor(l: Ledger, t: Tenant) {
    BalancedFor(l, t) && LoggedFor(l, t)
  }

  lemma EmptyConserved(t: Tenant)
    ensures ConservedFor(EMPTY_LEDGER, t)
  {
    assert OpenParts(map[], t) == map[];
    assert SettledParts(map[], t) == map[];
  }

  // ---- changes that do not concern the tenant ----

  /** Creating an empty account, or changing a limit or a version, moves no money. */
  lemma SameBooks(l: Ledger, l': Ledger, t: Tenant)
    requires ConservedFor(l, t) && l'.reservations == l.reservations && l'.events == l.events
    requires AccountOf(l', t).reserved == AccountOf(l, t).reserved && AccountOf(l', t).settled == AccountOf(l, t).settled
    ensures ConservedFor(l', t)
  {
  }

  /** A reservation of another tenant changes, with or without an event of that tenant. */
  ghost predicate Elsewhere(l: Ledger, l': Ledger, id: string, r: Reservation, t: Tenant) {
    && l'.reservations == l.reservations[id := r] && r.tenant != t
    && (id in l.reservations ==> l.reservations[id].tenant == r.tenant)
    && AccountOf(l', t) == AccountOf(l, t)
    && (l'.events == l.events || exists e :: l'.events == l.events + [e] && e.tenant != t && e.attempt == Some(id))
  }

  lemma ElsewhereConserves(l: Ledger, l': Ledger, id: string, r: Reservation, t: Tenant)
    requires ConservedFor(l, t) && Elsewhere(l, l', id, r, t)
    ensures ConservedFor(l', t)
  {
    TotalsAfterPut(l.reservations, id, r, t);
    if l'.events != l.events {
      var e :| l'.events == l.events + [e] && e.tenant != t && e.attempt == Some(id);
      ReplayAppended(l.events, e, t);
      MentionsAppended(l.events, e);
    }
  }

  // ---- one reservation of the tenant changes together with its event ----

  ghost predicate Booked(l: Ledger, l': Ledger, id: string, r: Reservation, e: Event) {
    && l'.reservations == l.reservations[id := r]
    && l'.events == l.events + [e]
    && (id in l.reservations ==> l.reservations[id].tenant == r.tenant)
    && e.tenant == r.tenant && e.attempt == Some(id)
    && (if id in l.reservations then l.reservations[id].state.Open? && !r.state.Open? else r.state.Open?)
    && e.kind == (match r.state case Open => Created case Settled => SettledEvent case Released => ReleasedEvent)
    && e.reservedDelta == OpenPart(r, r.tenant) - (if id in l.reservations then OpenPart(l.reservations[id], r.tenant) else 0)
    && e.settledDelta == SettledPart(r, r.tenant) - (if id in l.reservations then SettledPart(l.reservations[id], r.tenant) else 0)
  }

  lemma BookedBalance(l: Ledger, l': Ledger, id: string, r: Reservation, e: Event)
    requires BalancedFor(l, r.tenant) && Booked(l, l', id, r, e)
    ensures var was, now := AccountOf(l, r.tenant), AccountOf(l', r.tenant);
            BalancedFor(l', r.tenant) <==>
              && now.reserved == was.reserved + e.reservedDelta && now.settled == was.settled + e.settledDelta
              && 0 <= now.reserved <= I64_MAX && 0 <= now.settled <= I64_MAX
  {
    TotalsAfterPut(l.reservations, id, r, r.tenant);
    ReplayAppended(l.events, e, r.tenant);
  }

  lemma BookedLog(l: Ledger, l': Ledger, id: string, r: Reservation, e: Event)
    requires AtMostOnce(l) && LoggedFor(l, r.tenant) && Booked(l, l', id, r, e)
    ensures LoggedFor(l', r.tenant)
  {
    MentionsAppended(l.events, e);
    assert Mentions(l.events, id, SettledEvent) + Mentions(l.events, id, ReleasedEvent) == 0;
  }

  lemma BookedConserves(l: Ledger, l': Ledger, id: string, r: Reservation, e: Event)
    requires AtMostOnce(l) && ConservedFor(l, r.tenant) && Booked(l, l', id, r, e)
    ensures var was, now := AccountOf(l, r.tenant), AccountOf(l', r.tenant);
            ConservedFor(l', r.tenant) <==>
              && now.reserved == was.reserved + e.reservedDelta && now.settled == was.settled + e.settledDelta
              && 0 <= now.reserved <= I64_MAX && 0 <= now.settled <= I64_MAX
  {
    BookedBalance(l, l', id, r, e);
    BookedLog(l, l', id, r, e);
  }

  // ---- the operations that move money ----

  /** An attempt that will be admitted for the tenant does not take its reserved balance out of range. */
  predicate AttemptFits(l: Ledger, h: RequestHandle, attempt: string, cost: Microunits, t: Tenant) {
    h.tenant == t && InScopeOpen(l, h, attempt) && !OverLimit(AccountOf(l, t), cost) ==> AccountOf(l, t).reserved + cost <= I64_MAX
  }

  /** For one tenant an attempt keeps conservation exactly when it is not its own, is refused, or the reserved balance does not saturate. */
  lemma BeginAttemptConserves(l: Ledger, h: RequestHandle, attempt: string, cost: Microunits, expires: int, t: Tenant)
    requires Lifecycle(l) && ConservedFor(l, t)
    ensures ConservedFor(BeginAttempt(l, h, attempt, cost, expires).0, t) <==> AttemptFits(l, h, attempt, cost, t)
  {
    var (l', reply) := BeginAttempt(l, h, attempt, cost, expires);
    if reply.Ok? {
      var r, e := l'.reservations[attempt], Event(h.tenant, Some(attempt), Created, cost, 0);
      assert l'.events == l.events + [e];
      if h.tenant == t {
        BookedConserves(l, l', attempt, r, e);
      } else {
        ElsewhereConserves(l, l', attempt, r, t);
      }
    } else {
      SameBooks(l, l', t);
    }
  }

  lemma OpenWithinBalance(l: Ledger, id: string)
    requires id in l.reservations && l.reservations[id].state.Open? && BalancedFor(l, l.reservations[id].tenant)
    ensures l.reservations[id].reserved <= AccountOf(l, l.reservations[id].tenant).reserved
  {
    var t := l.reservations[id].tenant;
    SumNonNegative(OpenParts(l.reservations, t));
    assert OpenParts(l.reservations, t)[id] == l.reservations[id].reserved;
  }

  /** What finalising an open attempt does to its own reservation and account, by the answer it gives. */
  lemma FinalizeEffect(l: Ledger, h: AttemptHandle, outcome: Outcome)
    requires Lifecycle(l) && OpenInScope(l, h)
    ensures h.id in l.reservations && l.reservations[h.id].tenant == h.tenant && h.tenant in l.accounts
    ensures var (l', reply) := FinalizeAttempt(l, h, outcome);
            var r, a := l.reservations[h.id], AccountOf(l, h.tenant);
            && l'.reservations == l.reservations[h.id := r.(state := Settled, settled := outcome.cost)]
            && (forall t :: t != h.tenant ==> AccountOf(l', t) == AccountOf(l, t))
            && (reply == Ok || reply == Err(ReservedUnderflow) || reply == Err(SettledOverflow))
            && (reply == Err(ReservedUnderflow) <==> !Fits64(a.reserved - r.reserved))
            && (reply == Err(SettledOverflow) <==> Fits64(a.reserved - r.reserved) && !Fits64(a.settled + outcome.cost))
            && l'.events == (if reply == Ok then l.events + [Event(h.tenant, Some(h.id), SettledEvent, 0 - r.reserved, outcome.cost)] else l.events)
            && AccountOf(l', h.tenant).reserved == (if reply == Err(ReservedUnderflow) then a.reserved else a.reserved - r.reserved)
            && AccountOf(l', h.tenant).settled == (if reply == Ok then a.settled + outcome.cost else a.settled)
  {
    assert h.id in l.attempts.Keys && h.id in l.reservations;
  }

  /** Settling an open attempt of the tenant does not take its settled balance out of range. */
  predicate SettlementFits(l: Ledger, h: AttemptHandle, outcome: Outcome, t: Tenant) {
    h.tenant == t && OpenInScope(l, h) ==> AccountOf(l, t).settled + outcome.cost <= I64_MAX
  }

  /**
   For one tenant finalising keeps conservation exactly when the attempt is not its own, was not open, or the settled
   balance does not overflow; and then it answers without a budget error.
   */
  lemma FinalizeConserves(l: Ledger, h: AttemptHandle, outcome: Outcome, t: Tenant)
    requires Lifecycle(l) && ConservedFor(l, t)
    ensures var (l', reply) := FinalizeAttempt(l, h, outcome);
            && (ConservedFor(l', t) <==> SettlementFits(l, h, outcome, t))
            && (h.tenant == t && SettlementFits(l, h, outcome, t) ==> reply == Ok || reply == Err(MissingRecord))
  {
    if OpenInScope(l, h) {
      var (l', reply) := FinalizeAttempt(l, h, outcome);
      FinalizeEffect(l, h, outcome);
      if h.tenant != t {
        ElsewhereConserves(l, l', h.id, l'.reservations[h.id], t);
      } else {
        OpenWithinBalance(l, h.id);
        if reply == Ok {
          BookedConserves(l, l', h.id, l'.reservations[h.id],
                          Event(t, Some(h.id), SettledEvent, 0 - l.reservations[h.id].reserved, outcome.cost));
        } else {
          HalfSettled(l, h, outcome);
        }
      }
    }
  }

  /**
   If the settled balance leaves the 64-bit range, finalising fails half-way: the attempt has ended, its reservation counts
   as settled and its amount has left the reserved balance, but nothing was added to the settled one and nothing was logged.
   */
  lemma HalfSettled(l: Ledger, h: AttemptHandle, outcome: Outcome)
    requires Lifecycle(l) && OpenInScope(l, h) && ConservedFor(l, h.tenant)
    requires AccountOf(l, h.tenant).settled + outcome.cost > I64_MAX
    ensures h.id in l.reservations
    ensures var (l', reply) := FinalizeAttempt(l, h, outcome);
            && reply == Err(SettledOverflow)
            && l'.attempts == l.attempts[h.id := Finalized(l.attempts[h.id], outcome)]
            && h.id in l'.reservations && l'.reservations[h.id].state == Settled && l'.reservations[h.id].settled == outcome.cost
            && AccountOf(l', h.tenant).reserved == AccountOf(l, h.tenant).reserved - l.reservations[h.id].reserved
            && AccountOf(l', h.tenant).settled == AccountOf(l, h.tenant).settled
            && l'.events == l.events
            && !ConservedFor(l', h.tenant)
  {
    FinalizeEffect(l, h, outcome);
    OpenWithinBalance(l, h.id);
    var l' := FinalizeAttempt(l, h, outcome).0;
    TotalsAfterPut(l.reservations, h.id, l'.reservations[h.id], h.tenant);
  }

  /** Marking an open attempt unreconciled and releasing its reservation conserves every tenant's books, and succeeds on conserved ones. */
  lemma ReapOneConserves(l: Ledger, id: string, t: Tenant)
    requires Lifecycle(l) && ConservedFor(l, t) && id in l.attempts && !l.attempts[id].terminal
    ensures id in l.reservations
    ensures var (l', reply) := Release(Marked(l, id), id);
            ConservedFor(l', t) && (l.reservations[id].tenant == t ==> reply == Ok)
  {
    assert id in l.attempts.Keys && id in l.reservations;
    var r := l.reservations[id];
    var (l', reply) := Release(Marked(l, id), id);
    var e := Event(r.tenant, Some(id), ReleasedEvent, 0 - r.reserved, 0);
    assert l'.events == l.events || l'.events == l.events + [e];
    if r.tenant == t {
      OpenWithinBalance(l, id);
      BookedConserves(l, l', id, l'.reservations[id], e);
    } else {
      ElsewhereConserves(l, l', id, l'.reservations[id], t);
    }
  }

  /** A reaping pass, however far it gets, conserves the books of every tenant whose books were conserved. */
  lemma {:induction false} ReapConserves(l: Ledger, order: seq<string>, t: Tenant)
    requires Lifecycle(l) && Reapable(l, order) && ConservedFor(l, t)
    ensures ConservedFor(ReapAttempts(l, order).0, t)
    decreases |order|
  {
    if order != [] {
      var id := order[0];
      assert id in l.attempts && !l.attempts[id].terminal;
      ReapOneLives(l, id);
      ReapOneConserves(l, id, t);
      var (l1, reply) := Release(Marked(l, id), id);
      ReapableRest(l, l1, order);
      if reply.Ok? {
        ReapConserves(l1, order[1..], t);
      }
    }
  }

  /** An adjustment is refused exactly when the settled balance would go negative or out of range; it always conserves. */
  lemma AdjustConserves(l: Ledger, u: Tenant, delta: int, t: Tenant)
    requires ConservedFor(l, t)
    ensures ConservedFor(AdjustBudget(l, u, delta).0, t)
    ensures var (l', reply) := AdjustBudget(l, u, delta);
            && (reply == Ok <==> 0 <= AccountOf(l, u).settled + delta <= I64_MAX)
            && (reply == Ok ==> l'.events == l.events + [Event(u, None, Adjustment, 0, delta)]
                                && AccountOf(l', u).settled == AccountOf(l, u).settled + delta)
            && (reply != Ok ==> l'.events == l.events && AccountOf(l', u) == AccountOf(l, u))
  {
    var (l', reply) := AdjustBudget(l, u, delta);
    if reply.Ok? {
      var e := Event(u, None, Adjustment, 0, delta);
      MentionsAppended(l.events, e);
      ReplayAppended(l.events, e, t);
    } else {
      SameBooks(l, l', t);
    }
  }

  // ---- every operation ----

  /** What a caller can check beforehand: the tenant's new balance is a 64-bit amount. */
  ghost predicate FitsFor(l: Ledger, op: Op, t: Tenant) {
    match op
    case OpenAttempt(h, attempt, cost) => AttemptFits(l, h, attempt, cost, t)
    case EndAttempt(a, outcome) => SettlementFits(l, a, outcome, t)
    case _ => true
  }

  /** Whatever state the other tenants are in, an operation conserves a tenant's books exactly when its new balance fits. */
  lemma ConservesExactlyWhenItFits(ttl: nat, l: Ledger, now: int, op: Op, t: Tenant)
    requires Lifecycle(l) && ConservedFor(l, t) && Allowed(l, now, op)
    ensures ConservedFor(Apply(ttl, l, now, op), t) <==> FitsFor(l, op, t)
  {
    if MovesNoMoney(op) {
      OnlyLimitsAndLeases(ttl, l, now, op);
      SameBooks(l, Apply(ttl, l, now, op), t);
    } else {
      MoneyConserves(ttl, l, now, op, t);
    }
  }

  lemma ApplyOpen(ttl: nat, l: Ledger, now: int, op: Op)
    requires op.OpenAttempt?
    ensures Apply(ttl, l, now, op) == BeginAttempt(l, op.h, op.attempt, op.cost, now + ttl).0
  {
  }

  lemma OpenedConserves(l: Ledger, l': Ledger, h: RequestHandle, attempt: string, cost: Microunits, expires: int, t: Tenant)
    requires Lifecycle(l) && ConservedFor(l, t) && l' == BeginAttempt(l, h, attempt, cost, expires).0
    ensures ConservedFor(l', t) <==> AttemptFits(l, h, attempt, cost, t)
  {
    BeginAttemptConserves(l, h, attempt, cost, expires, t);
  }

  lemma OpenOpConserves(ttl: nat, l: Ledger, now: int, op: Op, t: Tenant)
    requires Lifecycle(l) && ConservedFor(l, t) && op.OpenAttempt?
    ensures ConservedFor(Apply(ttl, l, now, op), t) <==> AttemptFits(l, op.h, op.attempt, op.cost, t)
  {
    var l' := Apply(ttl, l, now, op);
    ApplyOpen(ttl, l, now, op);
    OpenedConserves(l, l', op.h, op.attempt, op.cost, now + ttl, t);
  }

  lemma EndOpConserves(ttl: nat, l: Ledger, now: int, op: Op, t: Tenant)
    requires Lifecycle(l) && ConservedFor(l, t) && op.EndAttempt?
    ensures ConservedFor(Apply(ttl, l, now, op), t) <==> FitsFor(l, op, t)
  {
    assert Apply(ttl, l, now, op) == FinalizeAttempt(l, op.a, op.outcome).0;
    FinalizeConserves(l, op.a, op.outcome, t);
  }

  lemma MoneyConserves(ttl: nat, l: Ledger, now: int, op: Op, t: Tenant)
    requires Lifecycle(l) && ConservedFor(l, t) && Allowed(l, now, op) && !MovesNoMoney(op)
    ensures ConservedFor(Apply(ttl, l, now, op), t) <==> FitsFor(l, op, t)
  {
    if op.Sweep? {
      SweepConserves(l, now, op.order, t);
    } else if op.Adjust? {
      AdjustConserves(l, op.t, op.delta, t);
    } else if op.OpenAttempt? {
      OpenOpConserves(ttl, l, now, op, t);
    } else {
      EndOpConserves(ttl, l, now, op, t);
    }
  }

  lemma SweepConserves(l: Ledger, now: int, order: seq<string>, t: Tenant)
    requires Lifecycle(l) && ConservedFor(l, t) && Lists(order, ExpiredAttempts(l, now))
    ensures ConservedFor(Reconcile(l, now, order).0, t)
  {
    assert Reapable(l, order);
    ReapConserves(l, order, t);
    var l1 := ReapAttempts(l, order).0;
    SameBooks(l1, ReapRequests(l1, now), t);
  }

  // ---- whole runs ----

  ghost predicate FitsThroughout(ttl: nat, l: Ledger, run: seq<Timed>, t: Tenant)
    decreases |run|
  {
    run == [] || (FitsFor(l, run[0].op, t) && FitsThroughout(ttl, Apply(ttl, l, run[0].now, run[0].op), run[1..], t))
  }

  lemma {:induction false} ConservedThroughout(ttl: nat, l: Ledger, clock: int, run: seq<Timed>, t: Tenant)
    requires Lifecycle(l) && ConservedFor(l, t) && Runs(ttl, l, clock, run) && FitsThroughout(ttl, l, run, t)
    ensures ConservedFor(Exec(ttl, l, run), t)
    decreases |run|
  {
    if run != [] {
      var Timed(now, op) := run[0];
      LifecycleKept(ttl, l, now, op);
      ConservesExactlyWhenItFits(ttl, l, now, op, t);
      ConservedThroughout(ttl, Apply(ttl, l, now, op), now, run[1..], t);
    }
  }

  /**
   In every run in which this tenant's balances fit, whatever happens to the others: the tenant's balances are
   non-negative, equal the totals over its reservations plus adjustments, and are what replaying the event log gives.
   */
  lemma ConservationAndReplay(ttl: nat, clock: int, run: seq<Timed>, t: Tenant)
    requires Runs(ttl, EMPTY_LEDGER, clock, run) && FitsThroughout(ttl, EMPTY_LEDGER, run, t)
    ensures var l := Exec(ttl, EMPTY_LEDGER, run); var a := AccountOf(l, t);
            && a.reserved == OpenTotal(l.reservations, t) == Replay(l.events, t).reserved >= 0
            && a.settled == SettledTotal(l.reservations, t) + Replay(l.events, t).adjusted
            && a.settled == Replay(l.events, t).settled >= 0
  {
    EmptyConserved(t);
    ConservedThroughout(ttl, EMPTY_LEDGER, clock, run, t);
  }

  /** In every such run each of the tenant's attempts that has ended has exactly one ending event. */
  lemma EndLoggedExactlyOnce(ttl: nat, clock: int, run: seq<Timed>, id: string, t: Tenant)
    requires Runs(ttl, EMPTY_LEDGER, clock, run) && FitsThroughout(ttl, EMPTY_LEDGER, run, t)
    requires var l := Exec(ttl, EMPTY_LEDGER, run); id in l.attempts && l.attempts[id].tenant == t
    ensures var l := Exec(ttl, EMPTY_LEDGER, run);
            Mentions(l.events, id, SettledEvent) + Mentions(l.events, id, ReleasedEvent) == (if l.attempts[id].terminal then 1 else 0)
  {
    EmptyConserved(t);
    ConservedThroughout(ttl, EMPTY_LEDGER, clock, run, t);
    SoundThroughout(ttl, EMPTY_LEDGER, clock, run);
    assert id in Exec(ttl, EMPTY_LEDGER, run).attempts.Keys;
  }

  // ---- a run that leaves the 64-bit range ----

  const ATTEMPT: AttemptHandle := AttemptHandle("a", TENANT, "i")

  const FULL: Account := Account(None, 0, I64_MAX, 1)
  const ADJUSTED: Ledger := EMPTY_LEDGER.(accounts := map[TENANT := FULL], events := [Event(TENANT, None, Adjustment, 0, I64_MAX)])

  lemma {:induction false} FitsOneMore(ttl: nat, l: Ledger, run: seq<Timed>, next: Timed, t: Tenant)
    ensures FitsThroughout(ttl, l, run + [next], t) <==> FitsThroughout(ttl, l, run, t) && FitsFor(Exec(ttl, l, run), next.op, t)
    decreases |run|
  {
    if run == [] {
      assert run + [next] == [next] && [next][1..] == [];
    } else {
      FitsOneMore(ttl, Apply(ttl, l, run[0].now, run[0].op), run[1..], next, t);
      assert (run + [next])[1..] == run[1..] + [next] && (run + [next])[0] == run[0];
    }
  }

  /** The tenant's settled balance is adjusted to the largest amount and a request is opened. */
  lemma Adjusted(ttl: nat) returns (run: seq<Timed>)
    ensures Runs(ttl, EMPTY_LEDGER, 0, run) && ClockAfter(0, run) == 0 && FitsThroughout(ttl, EMPTY_LEDGER, run, TENANT)
    ensures Exec(ttl, EMPTY_LEDGER, run) ==
            ADJUSTED.(requests := map["r" := Request(NewRecord(TENANT, "r", "i", ttl), None, "f")])
  {
    var adjust, open := Timed(0, Adjust(TENANT, I64_MAX)), Timed(0, OpenRequest(REQUEST, None, "f"));
    run := [];
    OneMore(ttl, EMPTY_LEDGER, 0, run, adjust);
    FitsOneMore(ttl, EMPTY_LEDGER, run, adjust, TENANT);
    run := run + [adjust];
    assert Exec(ttl, EMPTY_LEDGER, run) == ADJUSTED;
    assert !KeyUsed(ADJUSTED, TENANT, None);
    OneMore(ttl, EMPTY_LEDGER, 0, run, open);
    FitsOneMore(ttl, EMPTY_LEDGER, run, open, TENANT);
    run := run + [open];
  }

  /** One microunit more is reserved. */
  lemma FullyBooked(ttl: nat) returns (run: seq<Timed>)
    ensures Runs(ttl, EMPTY_LEDGER, 0, run) && FitsThroughout(ttl, EMPTY_LEDGER, run, TENANT)
    ensures var l := Exec(ttl, EMPTY_LEDGER, run);
            && OpenInScope(l, ATTEMPT) && AccountOf(l, TENANT).settled == I64_MAX && AccountOf(l, TENANT).reserved == 1
            && "a" in l.reservations && l.reservations["a"].reserved == 1
            && l.events == ADJUSTED.events + [Event(TENANT, Some("a"), Created, 1, 0)]
  {
    run := Adjusted(ttl);
    var next := Timed(0, OpenAttempt(REQUEST, "a", 1));
    OneMore(ttl, EMPTY_LEDGER, 0, run, next);
    FitsOneMore(ttl, EMPTY_LEDGER, run, next, TENANT);
    run := run + [next];
  }

  /**
   A reachable ledger in which settling fails after the attempt has ended and its reservation has left the reserved
   balance, and logs nothing.
   */
  lemma OverflowIsReachable(ttl: nat) returns (run: seq<Timed>)
    ensures Runs(ttl, EMPTY_LEDGER, 0, run)
    ensures var (l', reply) := FinalizeAttempt(Exec(ttl, EMPTY_LEDGER, run), ATTEMPT, Outcome(Completed, 1));
            && reply == Err(SettledOverflow)
            && "a" in l'.attempts && l'.attempts["a"].terminal
            && AccountOf(l', TENANT).reserved == 0 && AccountOf(l', TENANT).settled == I64_MAX
            && Mentions(l'.events, "a", SettledEvent) == 0 && Mentions(l'.events, "a", ReleasedEvent) == 0
            && !ConservedFor(l', TENANT)
  {
    run := FullyBooked(ttl);
    SoundThroughout(ttl, EMPTY_LEDGER, 0, run);
    EmptyConserved(TENANT);
    ConservedThroughout(ttl, EMPTY_LEDGER, 0, run, TENANT);
    var l := Exec(ttl, EMPTY_LEDGER, run);
    assert Mentions(l.events, "a", SettledEvent) + Mentions(l.events, "a", ReleasedEvent) == 0;
    HalfSettled(l, ATTEMPT, Outcome(Completed, 1));
  }
}
