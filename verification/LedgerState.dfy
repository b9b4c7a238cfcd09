/** The in-memory enterprise ledger: requests, provider attempts, budget accounts, reservations and budget events. */
module LedgerState {
  import opened Common

  const I64_MIN: int := -0x8000_0000_0000_0000

  /** Amounts are non-negative 64-bit microunits, as the cost conversion produces them. */
  type Microunits = x: int | 0 <= x <= I64_MAX

  datatype Tenant = Tenant(organization: string, project: string, environment: string)

  datatype RecordState = Started | Completed | Failed | CallCancelled

  datatype Outcome = Outcome(state: RecordState, cost: Microunits)

  /** A request or a provider attempt with its lease. */
  datatype Record = Record(
    tenant: Tenant,
    requestId: string,
    owner: string,
    terminal: bool,
    state: RecordState,
    cost: int,
    expires: int)

  datatype Request = Request(record: Record, keyHash: Option<string>, fingerprint: string)

  datatype Account = Account(limit: Option<int>, reserved: int, settled: int, version: int)

  datatype ReservationState = Open | Settled | Released

  datatype Reservation = Reservation(
    tenant: Tenant,
    requestId: string,
    reserved: Microunits,
    settled: int,
    state: ReservationState)

  datatype EventKind = Created | SettledEvent | ReleasedEvent | Adjustment

  datatype Event = Event(
    tenant: Tenant,
    attempt: Option<string>,
    kind: EventKind,
    reservedDelta: int,
    settledDelta: int)

  datatype Ledger = Ledger(
    requests: map<string, Request>,
    attempts: map<string, Record>,
    accounts: map<Tenant, Account>,
    reservations: map<string, Reservation>,
    events: seq<Event>)

  const EMPTY_LEDGER := Ledger(map[], map[], map[], map[], [])

  datatype RequestHandle = RequestHandle(id: string, tenant: Tenant, owner: string)

  datatype AttemptHandle = AttemptHandle(id: string, tenant: Tenant, owner: string)

  datatype Error =
    | IdempotencyConflict(sameRequest: bool, terminal: bool)
    | InvalidScope
    | AttemptExists
    | BudgetExceeded(available: int, requested: int)
    | MissingRecord
    | MissingReservation
    | MissingAccount
    | ReservedUnderflow
    | SettledOverflow
    | NegativeSettled

  datatype Reply = Ok | Err(error: Error)

  // ---- 64-bit arithmetic ----

  function Saturate(x: int): int {
    if x > I64_MAX then I64_MAX else if x < I64_MIN then I64_MIN else x
  }

  predicate Fits64(x: int) { I64_MIN <= x <= I64_MAX }

  // ---- requests ----

  ghost predicate SameKey(r: Request, tenant: Tenant, keyHash: Option<string>) {
    keyHash.Some? && r.record.tenant == tenant && r.keyHash == keyHash
  }

  ghost predicate KeyUsed(l: Ledger, tenant: Tenant, keyHash: Option<string>) {
    exists id :: id in l.requests && SameKey(l.requests[id], tenant, keyHash)
  }

  function NewRecord(tenant: Tenant, requestId: string, owner: string, expires: int): Record {
    Record(tenant, requestId, owner, false, Started, 0, expires)
  }

  ghost function BeginRequest(l: Ledger, h: RequestHandle, keyHash: Option<string>, fingerprint: string, expires: int)
    : (Ledger, Reply)
  {
    if KeyUsed(l, h.tenant, keyHash) then
      var id :| id in l.requests && SameKey(l.requests[id], h.tenant, keyHash);
      (l, Err(IdempotencyConflict(l.requests[id].fingerprint == fingerprint, l.requests[id].record.terminal)))
    else
      var request := Request(NewRecord(h.tenant, h.id, h.owner, expires), keyHash, fingerprint);
      (l.(requests := l.requests[h.id := request]), Ok)
  }

  predicate InScope(r: Record, tenant: Tenant, owner: string) {
    r.tenant == tenant && r.owner == owner
  }

  function Finalized(r: Record, outcome: Outcome): Record {
    r.(terminal := true, state := outcome.state, cost := outcome.cost)
  }

  function Unreconciled(r: Record): Record {
    r.(terminal := true, state := Failed)
  }

  /** Finalising a request does not look at the terminal flag. */
  function FinalizeRequest(l: Ledger, h: RequestHandle, outcome: Outcome): (Ledger, Reply) {
    if h.id !in l.requests || !InScope(l.requests[h.id].record, h.tenant, h.owner) then (l, Err(MissingRecord))
    else
      var request := l.requests[h.id];
      (l.(requests := l.requests[h.id := request.(record := Finalized(request.record, outcome))]), Ok)
  }

  // ---- budget ----

  const NEW_ACCOUNT := Account(None, 0, 0, 0)

  function AccountOf(l: Ledger, t: Tenant): Account {
    if t in l.accounts then l.accounts[t] else NEW_ACCOUNT
  }

  function WithAccount(l: Ledger, t: Tenant): Ledger {
    l.(accounts := l.accounts[t := AccountOf(l, t)])
  }

  function Bumped(a: Account): Account { a.(version := Saturate(a.version + 1)) }

  predicate OverLimit(a: Account, cost: int) {
    a.limit.Some? && Saturate(Saturate(a.settled + a.reserved) + cost) > a.limit.value
  }

  /** The balance quoted when a reservation is refused. */
  function QuotedAvailable(a: Account): int {
    Saturate(Saturate((if a.limit.Some? then a.limit.value else I64_MAX) - a.settled) - a.reserved)
  }

  /** The request is open and in scope, and the attempt id is new. */
  predicate InScopeOpen(l: Ledger, h: RequestHandle, attempt: string) {
    && h.id in l.requests && InScope(l.requests[h.id].record, h.tenant, h.owner) && !l.requests[h.id].record.terminal
    && attempt !in l.attempts && attempt !in l.reservations
  }

  function BeginAttempt(l: Ledger, h: RequestHandle, attempt: string, cost: Microunits, expires: int): (Ledger, Reply) {
    if h.id !in l.requests || !InScope(l.requests[h.id].record, h.tenant, h.owner)
       || l.requests[h.id].record.terminal then (l, Err(InvalidScope))
    else if attempt in l.attempts || attempt in l.reservations then (l, Err(AttemptExists))
    else
      var a := AccountOf(l, h.tenant);
      if OverLimit(a, cost) then (WithAccount(l, h.tenant), Err(BudgetExceeded(QuotedAvailable(a), cost)))
      else
        (Ledger(
           l.requests,
           l.attempts[attempt := NewRecord(h.tenant, h.id, h.owner, expires)],
           l.accounts[h.tenant := Bumped(a.(reserved := Saturate(a.reserved + cost)))],
           l.reservations[attempt := Reservation(h.tenant, h.id, cost, 0, Open)],
           l.events + [Event(h.tenant, Some(attempt), Created, cost, 0)]),
         Ok)
  }

  /** Settlement changes the reservation first and has no rollback, so an error leaves a partial change behind. */
  function Settle(l: Ledger, attempt: string, tenant: Tenant, cost: Microunits): (Ledger, Reply) {
    if attempt !in l.reservations then (l, Err(MissingReservation))
    else
      var r := l.reservations[attempt];
      if !r.state.Open? then (l, Ok)
      else
        var l1 := l.(reservations := l.reservations[attempt := r.(state := Settled, settled := cost)]);
        if tenant !in l.accounts then (l1, Err(MissingAccount))
        else
          var a := l.accounts[tenant];
          if !Fits64(a.reserved - r.reserved) then (l1, Err(ReservedUnderflow))
          else
            var a1 := a.(reserved := a.reserved - r.reserved);
            if !Fits64(a.settled + cost) then (l1.(accounts := l.accounts[tenant := a1]), Err(SettledOverflow))
            else
              (l1.(accounts := l.accounts[tenant := Bumped(a1.(settled := a.settled + cost))],
                   events := l.events + [Event(tenant, Some(attempt), SettledEvent, 0 - r.reserved, cost)]),
               Ok)
  }

  function Release(l: Ledger, attempt: string): (Ledger, Reply) {
    if attempt !in l.reservations then (l, Err(MissingReservation))
    else
      var r := l.reservations[attempt];
      if !r.state.Open? then (l, Ok)
      else
        var l1 := l.(reservations := l.reservations[attempt := r.(state := Released)]);
        if r.tenant !in l.accounts then (l1, Err(MissingAccount))
        else
          var a := l.accounts[r.tenant];
          if !Fits64(a.reserved - r.reserved) then (l1, Err(ReservedUnderflow))
          else
            (l1.(accounts := l.accounts[r.tenant := Bumped(a.(reserved := a.reserved - r.reserved))],
                 events := l.events + [Event(r.tenant, Some(attempt), ReleasedEvent, 0 - r.reserved, 0)]),
             Ok)
  }

  /** The attempt exists, is in scope and has not ended. */
  predicate OpenInScope(l: Ledger, h: AttemptHandle) {
    h.id in l.attempts && InScope(l.attempts[h.id], h.tenant, h.owner) && !l.attempts[h.id].terminal
  }

  function FinalizeAttempt(l: Ledger, h: AttemptHandle, outcome: Outcome): (Ledger, Reply) {
    if h.id !in l.attempts || !InScope(l.attempts[h.id], h.tenant, h.owner) then (l, Err(MissingRecord))
    else if l.attempts[h.id].terminal then (l, Ok)
    else
      Settle(l.(attempts := l.attempts[h.id := Finalized(l.attempts[h.id], outcome)]), h.id, h.tenant, outcome.cost)
  }

  function UpdateBudget(l: Ledger, t: Tenant, limit: Option<Microunits>): Ledger {
    l.(accounts := l.accounts[t := Bumped(AccountOf(l, t).(limit := limit))])
  }

  function AdjustBudget(l: Ledger, t: Tenant, delta: int): (Ledger, Reply) {
    var a := AccountOf(l, t);
    if !Fits64(a.settled + delta) || a.settled + delta < 0 then (WithAccount(l, t), Err(NegativeSettled))
    else
      (l.(accounts := l.accounts[t := Bumped(a.(settled := a.settled + delta))],
          events := l.events + [Event(t, None, Adjustment, 0, delta)]),
       Ok)
  }

  // ---- leases ----

  predicate Renews(r: Record, h: RequestHandle) {
    InScope(r, h.tenant, h.owner) && !r.terminal
  }

  function RenewLease(l: Ledger, h: RequestHandle, expires: int): Ledger {
    l.(requests := if h.id in l.requests && Renews(l.requests[h.id].record, h)
                   then l.requests[h.id := l.requests[h.id].(record := l.requests[h.id].record.(expires := expires))]
                   else l.requests,
       attempts := map id | id in l.attempts ::
                     if l.attempts[id].requestId == h.id && Renews(l.attempts[id], h)
                     then l.attempts[id].(expires := expires) else l.attempts[id])
  }

  predicate Expired(r: Record, now: int) { !r.terminal && r.expires <= now }

  function ExpiredAttempts(l: Ledger, now: int): set<string> {
    set id | id in l.attempts && Expired(l.attempts[id], now)
  }

  /** `order` lists a set of ids once each: the order in which a hash map happens to be walked. */
  ghost predicate Lists(order: seq<string>, ids: set<string>) {
    && (forall id :: id in order <==> id in ids)
    && (forall i, j :: 0 <= i < j < |order| ==> order[i] != order[j])
  }

  /** Reaps attempts one after the other, stopping at the first budget error. */
  function ReapAttempts(l: Ledger, order: seq<string>): (Ledger, Reply)
    decreases |order|
  {
    if order == [] then (l, Ok)
    else
      var marked := if order[0] in l.attempts
                    then l.(attempts := l.attempts[order[0] := Unreconciled(l.attempts[order[0]])]) else l;
      var (l1, reply) := Release(marked, order[0]);
      if reply.Err? then (l1, reply) else ReapAttempts(l1, order[1..])
  }

  function ReapRequests(l: Ledger, now: int): Ledger {
    l.(requests := map id | id in l.requests ::
                     if Expired(l.requests[id].record, now)
                     then l.requests[id].(record := Unreconciled(l.requests[id].record)) else l.requests[id])
  }

  function Reconcile(l: Ledger, now: int, order: seq<string>): (Ledger, Reply) {
    var (l1, reply) := ReapAttempts(l, order);
    if reply.Err? then (l1, reply) else (ReapRequests(l1, now), Ok)
  }

  // ---- reported balances ----

  datatype Report = Report(available: Option<int>, basisPoints: Option<int>, warning: bool, hardLimit: bool)

  /** Division as the code divides, towards zero. */
  function Quotient(x: int, d: int): int
    requires d > 0
  {
    if x >= 0 then x / d else 0 - (0 - x) / d
  }

  /** A quotient outside the 64-bit range, on either side, is reported as the largest value. */
  function UtilizationBps(consumed: int, limit: int): int
    requires limit >= 0
  {
    if limit == 0 then if consumed == 0 then 0 else I64_MAX
    else
      var bps := Quotient(consumed * 10000, limit);
      if Fits64(bps) then bps else I64_MAX
  }

  function BudgetReport(a: Account): Report
    requires a.limit.Some? ==> a.limit.value >= 0
  {
    var consumed := Saturate(a.reserved + a.settled);
    match a.limit
    case None => Report(None, None, false, false)
    case Some(limit) =>
      var bps := UtilizationBps(consumed, limit);
      Report(Some(Saturate(limit - consumed)), Some(bps), bps >= 8000, bps >= 10000)
  }
}
