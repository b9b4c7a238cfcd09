/** The reconcile pass over expired records: when it meets a budget error, what it does up to there, and when it ends all it should. */
module LedgerSweep {
  import opened Common
  import opened LedgerState
  import opened LedgerRuns
  import opened LedgerConservation
  import opened LedgerBudget
  import opened Sums

  // ---- what a set of attempts holds of a tenant's reserved balance ----

  ghost function OwedParts(rs: map<string, Reservation>, ids: set<string>, t: Tenant): map<string, int> {
    map id | id in rs :: if id in ids && rs[id].tenant == t then rs[id].reserved else 0
  }

  ghost function Owed(rs: map<string, Reservation>, ids: set<string>, t: Tenant): int { Sum(OwedParts(rs, ids, t)) }

  lemma OwedWithout(rs: map<string, Reservation>, ids: set<string>, id: string, t: Tenant)
    requires id in rs && id in ids
    ensures Owed(rs, ids, t) == Owed(rs, ids - {id}, t) + (if rs[id].tenant == t then rs[id].reserved else 0)
  {
    SumPut(OwedParts(rs, ids, t), id, 0);
    assert OwedParts(rs, ids - {id}, t) == OwedParts(rs, ids, t)[id := 0];
  }

  lemma OwedNothing(rs: map<string, Reservation>, t: Tenant)
    ensures Owed(rs, {}, t) == 0
  {
    SumSingle(OwedParts(rs, {}, t), "");
  }

  /** Releasing may change the state of a reservation, not its tenant or amount. */
  ghost predicate SameAmounts(rs: map<string, Reservation>, rs': map<string, Reservation>) {
    && rs'.Keys == rs.Keys
    && forall id :: id in rs ==> rs'[id].tenant == rs[id].tenant && rs'[id].reserved == rs[id].reserved
  }

  /** No tenant's reserved balance would leave the 64-bit range if all these attempts were released. */
  ghost predicate Releasable(l: Ledger, ids: set<string>) {
    forall t :: AccountOf(l, t).reserved - Owed(l.reservations, ids, t) >= I64_MIN
  }

  ghost predicate Reserves64(l: Ledger) {
    forall t :: Fits64(AccountOf(l, t).reserved)
  }

  lemma ReservesThroughout(ttl: nat, run: seq<Timed>)
    ensures Reserves64(Exec(ttl, EMPTY_LEDGER, run))
  {
    forall t ensures Fits64(AccountOf(Exec(ttl, EMPTY_LEDGER, run), t).reserved) {
      InRangeThroughout(ttl, EMPTY_LEDGER, run, t);
    }
  }

  // ---- when reaping meets an error ----

  lemma ReleaseEffect(l: Ledger, id: string)
    requires Lifecycle(l) && Reserves64(l) && id in l.attempts && !l.attempts[id].terminal
    ensures id in l.reservations
    ensures var (l1, reply) := Release(Marked(l, id), id);
            var r := l.reservations[id];
            && SameAmounts(l.reservations, l1.reservations)
            && reply == (if AccountOf(l, r.tenant).reserved - r.reserved >= I64_MIN then Ok else Err(ReservedUnderflow))
            && (reply == Ok ==> forall t ::
                  AccountOf(l1, t).reserved == AccountOf(l, t).reserved - if t == r.tenant then r.reserved else 0)
  {
    assert id in l.attempts.Keys && id in l.reservations;
    assert Fits64(AccountOf(l, l.reservations[id].tenant).reserved);
  }

  lemma ReleasedIsOwedNoMore(l: Ledger, l1: Ledger, ids: set<string>, id: string)
    requires id in l.reservations && id in ids && SameAmounts(l.reservations, l1.reservations)
    requires var r := l.reservations[id];
             forall t :: AccountOf(l1, t).reserved == AccountOf(l, t).reserved - if t == r.tenant then r.reserved else 0
    ensures Releasable(l1, ids - {id}) <==> Releasable(l, ids)
  {
    forall t
      ensures AccountOf(l1, t).reserved - Owed(l1.reservations, ids - {id}, t)
              == AccountOf(l, t).reserved - Owed(l.reservations, ids, t)
    {
      OwedWithout(l.reservations, ids, id, t);
      assert OwedParts(l1.reservations, ids - {id}, t) == OwedParts(l.reservations, ids - {id}, t);
    }
  }

  lemma TooMuchForOne(l: Ledger, ids: set<string>, id: string)
    requires id in l.reservations && id in ids
    requires AccountOf(l, l.reservations[id].tenant).reserved - l.reservations[id].reserved < I64_MIN
    ensures !Releasable(l, ids)
  {
    var t := l.reservations[id].tenant;
    SumNonNegative(OwedParts(l.reservations, ids, t));
    assert OwedParts(l.reservations, ids, t)[id] == l.reservations[id].reserved;
  }

  lemma ListsRest(order: seq<string>, ids: set<string>)
    requires order != [] && Lists(order, ids)
    ensures order[0] in ids && Lists(order[1..], ids - {order[0]})
  {
    assert order == [order[0]] + order[1..];
    assert order[0] !in order[1..];
  }

  /** Whatever the order, reaping meets no error exactly when the balances can bear the release of all of them. */
  lemma {:induction false} ReapsAllExactlyWhen(l: Ledger, order: seq<string>, ids: set<string>)
    requires Lifecycle(l) && Reserves64(l) && Reapable(l, order) && Lists(order, ids)
    ensures ReapAttempts(l, order).1 == if Releasable(l, ids) then Ok else Err(ReservedUnderflow)
    decreases |order|
  {
    if order == [] {
      forall t ensures AccountOf(l, t).reserved - Owed(l.reservations, ids, t) >= I64_MIN {
        assert ids == {} && Fits64(AccountOf(l, t).reserved);
        OwedNothing(l.reservations, t);
      }
    } else {
      var id := order[0];
      assert id in l.attempts && !l.attempts[id].terminal;
      ListsRest(order, ids);
      ReapOneLives(l, id);
      ReleaseEffect(l, id);
      var (l1, reply) := Release(Marked(l, id), id);
      ReapableRest(l, l1, order);
      if reply.Ok? {
        ReleasedIsOwedNoMore(l, l1, ids, id);
        StillReserves64(l, l1, id);
        ReapsAllExactlyWhen(l1, order[1..], ids - {id});
      } else {
        TooMuchForOne(l, ids, id);
      }
    }
  }

  lemma StillReserves64(l: Ledger, l1: Ledger, id: string)
    requires Reserves64(l) && id in l.reservations
    requires var r := l.reservations[id];
             && AccountOf(l, r.tenant).reserved - r.reserved >= I64_MIN
             && forall t :: AccountOf(l1, t).reserved == AccountOf(l, t).reserved - if t == r.tenant then r.reserved else 0
    ensures Reserves64(l1)
  {
    forall t ensures Fits64(AccountOf(l1, t).reserved) {
      assert Fits64(AccountOf(l, t).reserved);
    }
  }

  // ---- how far it gets ----

  lemma {:induction false} ReapSplit(l: Ledger, order: seq<string>, last: string)
    ensures var (l1, reply) := ReapAttempts(l, order);
            ReapAttempts(l, order + [last]) == if reply == Ok then ReapAttempts(l1, [last]) else (l1, reply)
    decreases |order|
  {
    if order == [] {
      assert order + [last] == [last];
    } else {
      assert (order + [last])[0] == order[0] && (order + [last])[1..] == order[1..] + [last];
      var (l1, reply) := Release(Marked(l, order[0]), order[0]);
      if reply.Ok? {
        ReapSplit(l1, order[1..], last);
      }
    }
  }

  lemma {:induction false} ReapTouchesOnlyListed(l: Ledger, order: seq<string>, id: string)
    requires id in l.attempts && id !in order
    ensures var l' := ReapAttempts(l, order).0; id in l'.attempts && l'.attempts[id] == l.attempts[id]
    decreases |order|
  {
    if order != [] {
      assert order[0] != id;
      ReleaseKeepsRecords(Marked(l, order[0]), order[0]);
      var (l1, reply) := Release(Marked(l, order[0]), order[0]);
      if reply.Ok? {
        ReapTouchesOnlyListed(l1, order[1..], id);
      }
    }
  }

  lemma ReapOneMarks(l: Ledger, id: string)
    ensures ReapAttempts(l, [id]).0.attempts == Marked(l, id).attempts && ReapAttempts(l, [id]).0.requests == l.requests
  {
    ReleaseKeepsRecords(Marked(l, id), id);
    assert [id][1..] == [];
  }

  lemma ReapableFront(l: Ledger, order: seq<string>, last: string)
    requires Reapable(l, order + [last])
    ensures Reapable(l, order) && last !in order && last in l.attempts
  {
    assert forall i :: 0 <= i < |order| ==> (order + [last])[i] == order[i];
    assert (order + [last])[|order|] == last && last in order + [last];
    assert forall id :: id in order ==> id in order + [last];
  }

  lemma ReapedAndLast(attempts: map<string, Record>, order: seq<string>, last: string)
    requires last in attempts && last !in order
    ensures Reaped(attempts, order + [last]) == Reaped(attempts, order)[last := Unreconciled(attempts[last])]
  {
    assert forall id :: id in order + [last] <==> id in order || id == last;
  }

  /** A pass that fails at its last attempt has ended that one too. */
  lemma AllButTheLast(l: Ledger, order: seq<string>, last: string)
    requires Lifecycle(l) && Reapable(l, order + [last]) && ReapAttempts(l, order).1 == Ok
    ensures var l' := ReapAttempts(l, order + [last]).0;
            l'.attempts == Reaped(l.attempts, order + [last]) && l'.requests == l.requests
  {
    ReapableFront(l, order, last);
    ReapLives(l, order);
    ReapSplit(l, order, last);
    ReapOneMarks(ReapAttempts(l, order).0, last);
    ReapedAndLast(l.attempts, order, last);
  }

  // ---- a whole pass ----

  /** Only expired records change, and an attempt that changes belongs to a request that has ended or has itself expired. */
  ghost predicate OnlyExpiredTouched(l: Ledger, l': Ledger, now: int) {
    && l'.attempts.Keys == l.attempts.Keys && l'.requests.Keys == l.requests.Keys
    && (forall id :: id in l.attempts && !Expired(l.attempts[id], now) ==> l'.attempts[id] == l.attempts[id])
    && (forall id :: id in l.requests && !Expired(l.requests[id].record, now) ==> l'.requests[id] == l.requests[id])
    && (forall id :: id in l.attempts && Expired(l.attempts[id], now) ==>
          && l.attempts[id].requestId in l.requests
          && var request := l.requests[l.attempts[id].requestId].record; request.terminal || Expired(request, now))
  }

  /** No expired record is left open. */
  ghost predicate NoneLeftOpen(l': Ledger, now: int) {
    && (forall id :: id in l'.attempts ==> !Expired(l'.attempts[id], now))
    && (forall id :: id in l'.requests ==> !Expired(l'.requests[id].record, now))
  }

  lemma PassTouchesOnlyExpired(ttl: nat, l: Ledger, clock: int, now: int, order: seq<string>)
    requires LeasesOk(ttl, l, clock) && Lists(order, ExpiredAttempts(l, now))
    ensures OnlyExpiredTouched(l, Reconcile(l, now, order).0, now)
  {
    var l1 := ReapAttempts(l, order).0;
    ReapAttemptsEnd(l, order);
    forall id | id in l.attempts && !Expired(l.attempts[id], now) ensures l1.attempts[id] == l.attempts[id] {
      assert id !in ExpiredAttempts(l, now);
      ReapTouchesOnlyListed(l, order, id);
    }
    forall id | id in l.attempts ensures ChildOf(l.attempts[id], l.requests) { }
  }

  /** In every run and for every pass, with or without an error: records that have not expired are as they were. */
  lemma OnlyExpiredAreTouched(ttl: nat, clock: int, run: seq<Timed>, now: int, order: seq<string>)
    requires Runs(ttl, EMPTY_LEDGER, clock, run)
    requires Lists(order, ExpiredAttempts(Exec(ttl, EMPTY_LEDGER, run), now))
    ensures var l := Exec(ttl, EMPTY_LEDGER, run); OnlyExpiredTouched(l, Reconcile(l, now, order).0, now)
  {
    SoundThroughout(ttl, EMPTY_LEDGER, clock, run);
    PassTouchesOnlyExpired(ttl, Exec(ttl, EMPTY_LEDGER, run), ClockAfter(clock, run), now, order);
  }

  /** In every run a pass meets no budget error exactly when every reserved balance can bear the release of its expired attempts. */
  lemma MeetsNoErrorExactlyWhen(ttl: nat, clock: int, run: seq<Timed>, now: int, order: seq<string>)
    requires Runs(ttl, EMPTY_LEDGER, clock, run)
    requires Lists(order, ExpiredAttempts(Exec(ttl, EMPTY_LEDGER, run), now))
    ensures var l := Exec(ttl, EMPTY_LEDGER, run);
            Reconcile(l, now, order).1 == if Releasable(l, ExpiredAttempts(l, now)) then Ok else Err(ReservedUnderflow)
  {
    SoundThroughout(ttl, EMPTY_LEDGER, clock, run);
    ReservesThroughout(ttl, run);
    var l := Exec(ttl, EMPTY_LEDGER, run);
    assert Reapable(l, order);
    ReapsAllExactlyWhen(l, order, ExpiredAttempts(l, now));
  }

  ghost predicate NoRequestDue(l: Ledger, now: int) {
    forall id :: id in l.requests ==> !Expired(l.requests[id].record, now)
  }

  /** All expired attempts can be released, or all but the one that comes last and there is nothing to do after it. */
  ghost predicate GetsThrough(l: Ledger, now: int, order: seq<string>) {
    || Releasable(l, ExpiredAttempts(l, now))
    || (order != [] && NoRequestDue(l, now) && Releasable(l, ExpiredAttempts(l, now) - {order[|order| - 1]}))
  }

  lemma CompletedPass(l: Ledger, now: int, order: seq<string>)
    requires Lifecycle(l) && Lists(order, ExpiredAttempts(l, now)) && Reconcile(l, now, order).1 == Ok
    ensures NoneLeftOpen(Reconcile(l, now, order).0, now)
  {
    SweepLives(l, now, order);
  }

  /** A pass that meets an error leaves nothing open exactly if it met it at the last attempt and no request was due. */
  lemma BrokenPass(l: Ledger, now: int, order: seq<string>, last: string)
    requires Lifecycle(l) && Lists(order + [last], ExpiredAttempts(l, now)) && Reconcile(l, now, order + [last]).1 != Ok
    ensures NoneLeftOpen(Reconcile(l, now, order + [last]).0, now) <==> NoRequestDue(l, now) && ReapAttempts(l, order).1 == Ok
  {
    var all := order + [last];
    var l' := Reconcile(l, now, all).0;
    assert Reapable(l, all);
    assert last == all[|order|] && last in ExpiredAttempts(l, now);
    ReapAttemptsEnd(l, all);
    if ReapAttempts(l, order).1 == Ok {
      AllButTheLast(l, order, last);
    } else {
      ReapSplit(l, order, last);
      ReapableFront(l, order, last);
      ReapTouchesOnlyListed(l, order, last);
      assert Expired(l'.attempts[last], now);
    }
  }

  /** No expired record is left open, and no attempt was reaped while its own request lives on. */
  ghost predicate Disciplined(l: Ledger, l': Ledger, now: int) {
    && NoneLeftOpen(l', now)
    && forall id :: id in l.attempts && Expired(l.attempts[id], now) ==>
         l.attempts[id].requestId in l'.requests && l'.requests[l.attempts[id].requestId].record.terminal
  }

  /** Leases are ordered, so if nothing expired is left open the requests of the reaped attempts have ended too. */
  lemma RequestsEndWithThem(ttl: nat, l: Ledger, clock: int, now: int, order: seq<string>)
    requires LeasesOk(ttl, l, clock)
    ensures var l' := Reconcile(l, now, order).0; Disciplined(l, l', now) <==> NoneLeftOpen(l', now)
  {
    var l' := Reconcile(l, now, order).0;
    SweepOnlyEnds(l, now, order);
    forall id | id in l.attempts && Expired(l.attempts[id], now) && NoneLeftOpen(l', now)
      ensures l.attempts[id].requestId in l'.requests && l'.requests[l.attempts[id].requestId].record.terminal
    {
      assert ChildOf(l.attempts[id], l.requests);
    }
  }

  /**
   In every run a pass ends all it should, and no attempt without its request, exactly when all expired attempts can be
   released, or all but the one it comes to last and no request is due.
   */
  lemma SweepDiscipline(ttl: nat, clock: int, run: seq<Timed>, now: int, order: seq<string>)
    requires Runs(ttl, EMPTY_LEDGER, clock, run)
    requires Lists(order, ExpiredAttempts(Exec(ttl, EMPTY_LEDGER, run), now))
    ensures var l := Exec(ttl, EMPTY_LEDGER, run);
            Disciplined(l, Reconcile(l, now, order).0, now) <==> GetsThrough(l, now, order)
  {
    SoundThroughout(ttl, EMPTY_LEDGER, clock, run);
    ReservesThroughout(ttl, run);
    RequestsEndWithThem(ttl, Exec(ttl, EMPTY_LEDGER, run), ClockAfter(clock, run), now, order);
    LeavesNoneOpenExactlyWhen(Exec(ttl, EMPTY_LEDGER, run), now, order);
  }

  lemma LeavesNoneOpenExactlyWhen(l: Ledger, now: int, order: seq<string>)
    requires Lifecycle(l) && Reserves64(l) && Lists(order, ExpiredAttempts(l, now))
    ensures NoneLeftOpen(Reconcile(l, now, order).0, now) <==> GetsThrough(l, now, order)
  {
    assert Reapable(l, order);
    ReapsAllExactlyWhen(l, order, ExpiredAttempts(l, now));
    if Releasable(l, ExpiredAttempts(l, now)) {
      CompletedPass(l, now, order);
    } else {
      assert order != [];
      var front, last := order[..|order| - 1], order[|order| - 1];
      assert order == front + [last];
      FrontReaps(l, now, front, last);
      BrokenPass(l, now, front, last);
    }
  }

  lemma FrontReaps(l: Ledger, now: int, front: seq<string>, last: string)
    requires Lifecycle(l) && Reserves64(l) && Lists(front + [last], ExpiredAttempts(l, now))
    ensures ReapAttempts(l, front).1 == Ok <==> Releasable(l, ExpiredAttempts(l, now) - {last})
  {
    var all := front + [last];
    assert (forall i :: 0 <= i < |front| ==> all[i] == front[i]) && all[|front|] == last;
    assert last !in front;
    assert forall id :: id in all <==> id in front || id == last;
    assert Lists(front, ExpiredAttempts(l, now) - {last}) && Reapable(l, front);
    ReapsAllExactlyWhen(l, front, ExpiredAttempts(l, now) - {last});
  }

  /** A tenant whose balances have fitted so far never stops a pass: it has reserved all that its expired attempts hold. */
  lemma FittingTenantsRelease(ttl: nat, clock: int, run: seq<Timed>, now: int, t: Tenant)
    requires Runs(ttl, EMPTY_LEDGER, clock, run) && FitsThroughout(ttl, EMPTY_LEDGER, run, t)
    ensures var l := Exec(ttl, EMPTY_LEDGER, run);
            AccountOf(l, t).reserved - Owed(l.reservations, ExpiredAttempts(l, now), t) >= 0
  {
    SoundThroughout(ttl, EMPTY_LEDGER, clock, run);
    EmptyConserved(t);
    ConservedThroughout(ttl, EMPTY_LEDGER, clock, run, t);
    var l := Exec(ttl, EMPTY_LEDGER, run);
    forall id | id in l.reservations && id in ExpiredAttempts(l, now) ensures l.reservations[id].state.Open? {
      assert id in l.attempts;
    }
    SumCompare(OwedParts(l.reservations, ExpiredAttempts(l, now), t), OpenParts(l.reservations, t));
  }

  // ---- a pass that stops half-way ----

  /** The request is open, the attempts each hold the largest amount, and the reserved balance has saturated. */
  ghost predicate Stuffed(ttl: nat, l: Ledger, ids: set<string>) {
    && l.requests == map["r" := Request(NewRecord(TENANT, "r", "i", ttl), None, "f")]
    && l.attempts.Keys == ids && l.reservations.Keys == ids
    && (forall id :: id in ids ==> l.attempts[id] == NewRecord(TENANT, "r", "i", ttl))
    && (forall id :: id in ids ==> l.reservations[id] == Reservation(TENANT, "r", I64_MAX, 0, Open))
    && AccountOf(l, TENANT).limit == None && AccountOf(l, TENANT).reserved == (if ids == {} then 0 else I64_MAX)
  }

  lemma Begun(ttl: nat) returns (run: seq<Timed>)
    ensures Runs(ttl, EMPTY_LEDGER, 0, run) && ClockAfter(0, run) == 0 && Stuffed(ttl, Exec(ttl, EMPTY_LEDGER, run), {})
  {
    var open := Timed(0, OpenRequest(REQUEST, None, "f"));
    assert !KeyUsed(EMPTY_LEDGER, TENANT, None);
    OneMore(ttl, EMPTY_LEDGER, 0, [], open);
    run := [] + [open];
  }

  lemma OneMoreAttempt(ttl: nat, run: seq<Timed>, ids: set<string>, id: string) returns (longer: seq<Timed>)
    requires Runs(ttl, EMPTY_LEDGER, 0, run) && ClockAfter(0, run) == 0 && Stuffed(ttl, Exec(ttl, EMPTY_LEDGER, run), ids)
    requires id !in ids
    ensures Runs(ttl, EMPTY_LEDGER, 0, longer) && ClockAfter(0, longer) == 0
    ensures Stuffed(ttl, Exec(ttl, EMPTY_LEDGER, longer), ids + {id})
  {
    var next := Timed(0, OpenAttempt(REQUEST, id, I64_MAX));
    OneMore(ttl, EMPTY_LEDGER, 0, run, next);
    longer := run + [next];
    var l, l' := Exec(ttl, EMPTY_LEDGER, run), Exec(ttl, EMPTY_LEDGER, longer);
    assert InScopeOpen(l, REQUEST, id);
    assert l'.attempts == l.attempts[id := NewRecord(TENANT, "r", "i", ttl)];
    assert l'.reservations == l.reservations[id := Reservation(TENANT, "r", I64_MAX, 0, Open)];
  }

  lemma ThreeStuffed(ttl: nat) returns (run: seq<Timed>)
    ensures Runs(ttl, EMPTY_LEDGER, 0, run) && Stuffed(ttl, Exec(ttl, EMPTY_LEDGER, run), {"a", "b", "c"})
  {
    run := Begun(ttl);
    run := OneMoreAttempt(ttl, run, {}, "a");
    assert {} + {"a"} == {"a"};
    run := OneMoreAttempt(ttl, run, {"a"}, "b");
    assert {"a"} + {"b"} == {"a", "b"};
    run := OneMoreAttempt(ttl, run, {"a", "b"}, "c");
    assert {"a", "b"} + {"c"} == {"a", "b", "c"};
  }

  lemma StuffedOwes(ttl: nat, l: Ledger, a: string, b: string, c: string)
    requires a != b && a != c && b != c && Stuffed(ttl, l, {a, b, c})
    ensures Owed(l.reservations, {a, b, c}, TENANT) == 3 * I64_MAX && Owed(l.reservations, {a, b}, TENANT) == 2 * I64_MAX
  {
    var rs := l.reservations;
    OwedWithout(rs, {a, b, c}, c, TENANT);
    assert {a, b, c} - {c} == {a, b};
    OwedWithout(rs, {a, b}, b, TENANT);
    assert {a, b} - {b} == {a};
    OwedWithout(rs, {a}, a, TENANT);
    assert {a} - {a} == {};
    OwedNothing(rs, TENANT);
  }

  lemma TwoOfThree(ttl: nat, l: Ledger, a: string, b: string, c: string)
    requires a != b && a != c && b != c && Reserves64(l) && Stuffed(ttl, l, {a, b, c})
    ensures Releasable(l, {a, b}) && !Releasable(l, {a, b, c})
  {
    StuffedOwes(ttl, l, a, b, c);
    forall t ensures AccountOf(l, t).reserved - Owed(l.reservations, {a, b}, t) >= I64_MIN {
      assert Fits64(AccountOf(l, t).reserved);
      if t != TENANT {
        SumSingle(OwedParts(l.reservations, {a, b}, t), a);
      }
    }
    assert AccountOf(l, TENANT).reserved - Owed(l.reservations, {a, b, c}, TENANT) < I64_MIN;
  }

  /** If all but the last can be released, the pass ends every attempt and no request. */
  lemma StopsAtTheLast(l: Ledger, now: int, front: seq<string>, last: string)
    requires Lifecycle(l) && Reserves64(l) && Lists(front + [last], ExpiredAttempts(l, now))
    requires Releasable(l, ExpiredAttempts(l, now) - {last}) && !Releasable(l, ExpiredAttempts(l, now))
    ensures var (l', reply) := Reconcile(l, now, front + [last]);
            reply == Err(ReservedUnderflow) && l'.attempts == Reaped(l.attempts, front + [last]) && l'.requests == l.requests
  {
    assert Reapable(l, front + [last]);
    ReapsAllExactlyWhen(l, front + [last], ExpiredAttempts(l, now));
    FrontReaps(l, now, front, last);
    AllButTheLast(l, front, last);
  }

  /** Every one of these attempts has ended, and their expired request is still open. */
  ghost predicate HalfDone(l': Ledger, ids: set<string>, now: int) {
    && l'.attempts.Keys == ids && (forall id :: id in l'.attempts ==> l'.attempts[id].terminal)
    && "r" in l'.requests && Expired(l'.requests["r"].record, now)
  }

  lemma StuffedHalfDone(ttl: nat, l: Ledger, l': Ledger, order: seq<string>, ids: set<string>)
    requires Stuffed(ttl, l, ids) && Lists(order, ids)
    requires l'.attempts == Reaped(l.attempts, order) && l'.requests == l.requests
    ensures HalfDone(l', ids, ttl)
  {
  }

  lemma StuffedStops(ttl: nat, l: Ledger, front: seq<string>, last: string, ids: set<string>)
    requires Lifecycle(l) && Reserves64(l) && Stuffed(ttl, l, ids) && Lists(front + [last], ids)
    requires Releasable(l, ids - {last}) && !Releasable(l, ids)
    ensures ExpiredAttempts(l, ttl) == ids
    ensures var (l', reply) := Reconcile(l, ttl, front + [last]); reply == Err(ReservedUnderflow) && HalfDone(l', ids, ttl)
  {
    assert ExpiredAttempts(l, ttl) == ids;
    StopsAtTheLast(l, ttl, front, last);
    StuffedHalfDone(ttl, l, Reconcile(l, ttl, front + [last]).0, front + [last], ids);
  }

  lemma ThreeListed(a: string, b: string, c: string)
    requires a != b && a != c && b != c
    ensures Lists([a, b, c], {a, b, c}) && [a, b] + [c] == [a, b, c] && {a, b, c} - {c} == {a, b}
  {
  }

  /**
   A reachable ledger on which a pass stops half-way: three attempts of the largest amount saturate the reserved balance,
   their release underflows at the third, and all three have ended while their expired request is still open.
   */
  lemma SweepStopsHalfWay(ttl: nat) returns (run: seq<Timed>)
    ensures Runs(ttl, EMPTY_LEDGER, 0, run)
    ensures var l := Exec(ttl, EMPTY_LEDGER, run);
            Lists(["a", "b", "c"], ExpiredAttempts(l, ttl))
            && var (l', reply) := Reconcile(l, ttl, ["a", "b", "c"]);
               reply == Err(ReservedUnderflow) && HalfDone(l', {"a", "b", "c"}, ttl)
  {
    run := ThreeStuffed(ttl);
    SoundThroughout(ttl, EMPTY_LEDGER, 0, run);
    ReservesThroughout(ttl, run);
    ThreeListed("a", "b", "c");
    TwoOfThree(ttl, Exec(ttl, EMPTY_LEDGER, run), "a", "b", "c");
    StuffedStops(ttl, Exec(ttl, EMPTY_LEDGER, run), ["a", "b"], "c", {"a", "b", "c"});
  }
}
