/**
 * Which runs rounding can hurt. Runs whose notionals are all stored as they are never meet a failing
 * check. Others can: here are reachable states in which a fill, a rejection and a cancellation, or the
 * record of a failed submission, is refused.
 */
module Rounding {
  import opened Types
  import opened Numeric
  import opened Tables
  import opened OrderRules
  import opened History
  import opened Transactions
  import opened Invariant
  import opened Steps
  import opened Guards
  import opened Money

  // ---------- runs that rounding does not touch ----------

  lemma WholeRunsAreBacked(m: Storage, cs: seq<Command>, id: Uuid)
    requires CleanRun(m, cs) && id in Run(m, EMPTY, cs).orders
    requires WholeRun(m, cs, Run(m, EMPTY, cs).orders[id].accountId)
    ensures Inv(m, Run(m, EMPTY, cs)) && Backed(Run(m, EMPTY, cs), id)
  {
    hide Inv;
    hide Run;
    hide Backed;
    hide WholeRun;
    hide Drift;
    var db := Run(m, EMPTY, cs);
    EmptyInv(m);
    RunKeepsInv(m, EMPTY, cs);
    AccountIsKnown(m, db, id);
    ReservationWithoutDrift(m, cs, db.orders[id].accountId);
    HoldingIsReserved(m, db, id);
  }

  /**
   * After any run whose notionals on the order's account are stored as they are, in either form of
   * storage: a well-formed new event at or below the limit is applied exactly when it takes effect, and a
   * failed submission is always recorded.
   */
  lemma WholeRunsNeverFail(m: Storage, cs: seq<Command>, e: BrokerEvent, reason: string)
    requires CleanRun(m, cs) && WellFormed(e) && CleanCommand(m, Handle(e)) && e.orderId in Run(m, EMPTY, cs).orders
    requires WholeRun(m, cs, Run(m, EMPTY, cs).orders[e.orderId].accountId)
    requires e.eventId in Run(m, EMPTY, cs).processed || !IsFill(e) ||
             FillIsFresh(Run(m, EMPTY, cs).fills, e.eventId, ExecutionKey(e))
    requires var o := Run(m, EMPTY, cs).orders[e.orderId]; IsFill(e) && o.side.Buy? ==> e.price.value <= o.price
    ensures var db := Run(m, EMPTY, cs);
      && Step(m, db, Handle(e)).outcome == Ok(Applied(e.eventId !in db.processed && TakesEffect(db.orders[e.orderId], e)))
      && Step(m, db, RoutingFailed(e.orderId, reason)).outcome == Ok(Done)
  {
    hide Inv;
    hide Run;
    hide Step;
    hide Backed;
    hide WholeRun;
    hide CleanRun;
    hide FillIsFresh;
    hide TakesEffect;
    WholeRunsAreBacked(m, cs, e.orderId);
    KnownEventsNeverFail(m, Run(m, EMPTY, cs), e);
    RoutingFailureNeverFails(m, Run(m, EMPTY, cs), e.orderId, reason);
  }

  // ---------- orders that rounding strands ----------

  /** A buy whose whole notional is stored as zero. */
  predicate Small(p: Payload) {
    && p.side.Buy? && p.quantity > 0.0 && p.price > 0.0
    && Clean(Scale8, p.quantity) && Clean(Scale8, p.price)
    && Notional(p.quantity, p.price) > 0.0 && Stored(Scale8, Notional(p.quantity, p.price)) == 0.0
  }

  /** One step of 10^-8 at 0.4 is such a buy. */
  lemma SmallExists(p: Payload)
    requires p.side.Buy? && p.quantity == 0.00000001 && p.price == 0.4
    ensures Small(p)
  {
    assert Nearest(1.0) == 1 && Nearest(40000000.0) == 40000000 && Nearest(0.4) == 0;
  }

  /** A working buy whose account has nothing reserved. */
  predicate Unbacked(db: Db, id: Uuid) {
    && id in db.orders && Working(db.orders[id].status) && HoldsCash(db.orders[id])
    && db.orders[id].accountId in db.accounts && db.accounts[db.orders[id].accountId].reserved == 0.0
  }

  /**
   * As long as its account has nothing reserved, no event takes effect on an unbacked order: a rejection,
   * a cancellation and every fill, whole or partial and at any price, raises and changes nothing.
   */
  lemma UnbackedIsStranded(m: Storage, db: Db, id: Uuid, e: BrokerEvent)
    requires Inv(m, db) && Unbacked(db, id) && e.orderId == id && e.eventId !in db.processed
    requires WellFormed(e) && CleanCommand(m, Handle(e)) && TakesEffect(db.orders[id], e)
    requires IsFill(e) ==> FillIsFresh(db.fills, e.eventId, ExecutionKey(e))
    ensures Step(m, db, Handle(e)).outcome.Fail? && Step(m, db, Handle(e)).db == db
  {
    hide Inv;
    hide Step;
    hide FillIsFresh;
    RefusedUnchanged(m, db, Handle(e));
    if IsFill(e) {
      UnbackedFillFails(m, db, e);
    } else {
      UnbackedClosingFails(m, db, e);
    }
  }

  lemma UnbackedFillFails(m: Storage, db: Db, e: BrokerEvent)
    requires Inv(m, db) && Unbacked(db, e.orderId) && e.eventId !in db.processed && IsFill(e)
    requires WellFormed(e) && CleanCommand(m, Handle(e)) && GuardFill(db.orders[e.orderId], e).Take?
    requires FillIsFresh(db.fills, e.eventId, ExecutionKey(e))
    ensures Step(m, db, Handle(e)).outcome.Fail?
  {
    hide Inv;
    hide Step;
    hide FillIsFresh;
    hide FillVerdict;
    FillCommitsIff(m, db, e);
    OrderOf(m, db, e.orderId);
    FillNotionals(m, db.orders[e.orderId], e.quantity, e.price.value);
    hide OrderOk;
    hide Notional;
    hide WithFill;
    hide Stored;
  }

  lemma UnbackedClosingFails(m: Storage, db: Db, e: BrokerEvent)
    requires Inv(m, db) && Unbacked(db, e.orderId) && e.eventId !in db.processed && !IsFill(e)
    requires TakesEffect(db.orders[e.orderId], e)
    ensures Step(m, db, Handle(e)).outcome == Fail(InvalidFill)
  {
    hide Inv;
    hide Step;
    ClosingCommitsIff(m, db, e);
    OrderOf(m, db, e.orderId);
    PositiveRemainder(m, db.orders[e.orderId]);
    hide OrderOk;
    hide Notional;
  }

  lemma PositiveRemainder(m: Storage, o: Order)
    requires OrderOk(m, o) && HoldsCash(o)
    ensures RemainingNotional(o) > 0.0
  {
    hide Stored;
  }

  lemma RefusedUnchanged(m: Storage, db: Db, c: Command)
    ensures Step(m, db, c).outcome.Fail? ==> Step(m, db, c).db == db
  {
    hide Judge;
    hide Stored;
  }

  // ---------- what two kinds of transaction do to the rows ----------

  /** A new buy for a known account that can pay for it. */
  ghost predicate Placeable(m: Storage, db: Db, c: Command) {
    && c.Place? && CleanCommand(m, c) && c.payload.side.Buy? && c.payload.quantity > 0.0 && c.payload.price > 0.0
    && c.orderId !in db.orders && c.payload.accountId in db.accounts
    && FindByKey(db.orders, c.payload.accountId, c.payload.idempotencyKey).None?
    && !ClientIdTaken(db.orders, c.payload.accountId, c.payload.clientOrderId)
    && Notional(c.payload.quantity, c.payload.price) <= db.accounts[c.payload.accountId].Available()
  }

  lemma PlacementAccepted(m: Storage, db: Db, c: Command)
    requires Inv(m, db) && Placeable(m, db, c)
    ensures var v := PlaceVerdict(m, c.payload, c.orderId, c.expiry, ViewOf(db, c));
      && v.Write? && v.change.orderId == c.orderId && v.change.order == NewOrder(c.payload, c.expiry).(status := Routed)
      && v.change.account == Some(Reserve(db.accounts[c.payload.accountId], NewOrder(c.payload, c.expiry)))
      && v.change.processed.None? && v.change.fill.None?
  {
    hide Inv;
    var a, o := db.accounts[c.payload.accountId], NewOrder(c.payload, c.expiry);
    AccountRowOk(m, db, c.payload.accountId);
    NewOrderIsClean(m, c.payload, c.expiry);
    StoreKeepsOrder(m, o);
    NonNegativeProduct(c.payload.quantity, c.payload.price);
    assert RequiredBuyingPower(Buy, c.payload.quantity, c.payload.price) == Notional(c.payload.quantity, c.payload.price);
    StoringKeepsChecks(m, Reserve(a, o));
    hide Stored;
    hide StoreOrder;
    hide StoreAccount;
    hide FindByKey;
    hide ClientIdTaken;
    hide Notional;
    hide RequiredBuyingPower;
  }

  /** The rows after a placement. */
  lemma Placed(m: Storage, db: Db, c: Command)
    requires Inv(m, db) && Placeable(m, db, c)
    ensures var r := Step(m, db, c); var a := db.accounts[c.payload.accountId];
      && r.db.orders == db.orders[c.orderId := NewOrder(c.payload, c.expiry).(status := Routed)]
      && c.payload.accountId in r.db.accounts
      && r.db.accounts[c.payload.accountId].cash == Stored(m, a.cash)
      && r.db.accounts[c.payload.accountId].reserved == Stored(m, a.reserved + Notional(c.payload.quantity, c.payload.price))
      && r.db.accounts[c.payload.accountId].version == a.version + 1
      && r.db.processed == db.processed && r.db.fills == db.fills
  {
    hide Inv;
    hide Placeable;
    PlacementAccepted(m, db, c);
    assert Clean(m, c.payload.quantity) && Clean(m, c.payload.price) && c.payload.side.Buy? && c.payload.accountId in db.accounts by {
      PlaceableParts(m, db, c);
    }
    NewOrderIsClean(m, c.payload, c.expiry);
    StoreKeepsOrder(m, NewOrder(c.payload, c.expiry).(status := Routed));
    assert RequiredBuyingPower(Buy, c.payload.quantity, c.payload.price) == Notional(c.payload.quantity, c.payload.price);
    hide RequiredBuyingPower;
    hide Notional;
    hide StoreOrder;
    hide PlaceVerdict;
    hide Stored;
  }

  lemma PlaceableParts(m: Storage, db: Db, c: Command)
    requires Placeable(m, db, c)
    ensures c.Place? && CleanCommand(m, c) && c.payload.side.Buy? && c.payload.accountId in db.accounts
  {
    hide Stored;
  }

  /** The rows after a fill of a resting buy order at its limit. */
  lemma FilledAtLimit(m: Storage, db: Db, e: BrokerEvent)
    requires Inv(m, db) && IsFill(e) && WellFormed(e) && CleanCommand(m, Handle(e))
    requires e.orderId in db.orders && e.eventId !in db.processed && FillIsFresh(db.fills, e.eventId, ExecutionKey(e))
    requires var o := db.orders[e.orderId];
      && GuardFill(o, e).Take? && o.side.Buy? && !o.timeInForce.Ioc? && e.price.value == o.price
      && o.accountId in db.accounts && Notional(e.quantity, o.price) <= db.accounts[o.accountId].reserved
    ensures var o, db' := db.orders[e.orderId], Step(m, db, Handle(e)).db;
      && e.orderId in db'.orders && db'.orders[e.orderId].remaining == o.remaining - e.quantity
      && SameIdentity(o, db'.orders[e.orderId])
      && (e.quantity < o.remaining ==> Working(db'.orders[e.orderId].status))
      && (forall id :: id in db.orders && id != e.orderId ==> id in db'.orders && db'.orders[id] == db.orders[id])
      && o.accountId in db'.accounts
      && db'.accounts[o.accountId].cash == Stored(m, db.accounts[o.accountId].cash - Notional(e.quantity, o.price))
      && db'.accounts[o.accountId].reserved == Stored(m, db.accounts[o.accountId].reserved - Notional(e.quantity, o.price))
      && db'.processed.Keys == db.processed.Keys + {e.eventId}
      && (|db'.fills| == |db.fills| + 1 && db.fills <= db'.fills
          && db'.fills[|db.fills|].eventId == e.eventId && db'.fills[|db.fills|].executionId == ExecutionKey(e))
  {
    hide Inv;
    hide FillVerdict;
    hide FillIsFresh;
    hide Execute;
    hide AccountChecks;
    var o := db.orders[e.orderId];
    OrderOf(m, db, e.orderId);
    WithinLimitFillCommitsIff(m, db, e);
    FillCommitsIff(m, db, e);
    FillWrites(m, e, ViewOf(db, Handle(e)));
    FillOutcomeRow(m, o, e.quantity, e.price.value);
    hide OrderOk;
    hide Notional;
    hide Stored;
    hide Within;
    hide ValueFilled;
    hide Covers;
  }

  // ---------- reachable examples ----------

  lemma AccountIsOpened(id: Uuid, userId: string)
    ensures var r := Step(Scale8, EMPTY, Open(id, userId, 1.0));
      r.outcome.Ok? && r.db == EMPTY.(accounts := map[id := Account(userId, 1.0, 0.0, 1)]) && Stored(Scale8, 1.0) == 1.0
  {
    assert Nearest(100000000.0) == 100000000 && Nearest(0.0) == 0;
    hide Nearest;
  }

  lemma FirstIsPlaceable(db: Db, c: Command, userId: string)
    requires c.Place? && CleanCommand(Scale8, c) && c.payload.side.Buy? && c.payload.quantity > 0.0 && c.payload.price > 0.0
    requires db == EMPTY.(accounts := map[c.payload.accountId := Account(userId, 1.0, 0.0, 1)])
    requires Notional(c.payload.quantity, c.payload.price) <= 1.0
    ensures Placeable(Scale8, db, c)
  {
    hide Stored;
    hide Notional;
  }

  lemma PathGrows(m: Storage, db: Db, c: Command)
    requires Reachable(m, db) && CleanCommand(m, c)
    ensures Reachable(m, Step(m, db, c).db)
  {
    hide Step;
    hide CleanCommand;
    var cs, dbs :| Path(m, cs, dbs) && dbs[0] == EMPTY && dbs[|cs|] == db;
    assert Path(m, cs + [c], dbs + [Step(m, db, c).db]);
    assert (dbs + [Step(m, db, c).db])[|cs + [c]|] == Step(m, db, c).db;
  }

  lemma StartIsReachable(m: Storage)
    ensures Reachable(m, EMPTY)
  {
    assert Path(m, [], [EMPTY]) && [EMPTY][0] == EMPTY;
  }

  /** The account after its opening, with one unit of cash. */
  lemma Funded(id: Uuid, userId: string) returns (db: Db)
    ensures Reachable(Scale8, db) && db == EMPTY.(accounts := map[id := Account(userId, 1.0, 0.0, 1)])
  {
    AccountIsOpened(id, userId);
    StartIsReachable(Scale8);
    PathGrows(Scale8, EMPTY, Open(id, userId, 1.0));
    db := Step(Scale8, EMPTY, Open(id, userId, 1.0)).db;
    hide Step;
    hide Reachable;
  }

  lemma SmallParts(c: Command)
    requires c.Place? && Small(c.payload)
    ensures CleanCommand(Scale8, c) && c.payload.side.Buy? && c.payload.quantity > 0.0 && c.payload.price > 0.0
    ensures Stored(Scale8, Notional(c.payload.quantity, c.payload.price)) == 0.0
  {
    hide Stored;
  }

  /**
   * An unbacked order is reachable in two transactions: open an account with one unit of cash and buy one
   * step of 10^-8 at 0.4.
   */
  lemma RoundingStrandsAnOrder(userId: string, c: Command) returns (db: Db)
    requires c.Place? && c.payload.side.Buy? && c.payload.quantity == 0.00000001 && c.payload.price == 0.4
    ensures Reachable(Scale8, db) && Unbacked(db, c.orderId) && db.processed == map[] && db.fills == []
  {
    var funded := Funded(c.payload.accountId, userId);
    SmallExists(c.payload);
    SmallParts(c);
    assert Notional(c.payload.quantity, c.payload.price) <= 1.0;
    assert 0.0 + Notional(c.payload.quantity, c.payload.price) == Notional(c.payload.quantity, c.payload.price);
    hide Notional;
    hide Stored;
    hide Small;
    hide CleanCommand;
    hide Reachable;
    hide Placeable;
    FirstIsPlaceable(funded, c, userId);
    ReachableInv(Scale8, funded);
    hide Inv;
    Placed(Scale8, funded, c);
    PathGrows(Scale8, funded, c);
    db := Step(Scale8, funded, c).db;
    hide Step;
  }

  /** A buy of one step at 0.6, a buy of two steps at 0.7 on the same account, and two partial fills of the second. */
  predicate RoutingExample(a: Command, b: Command, e: BrokerEvent, f: BrokerEvent) {
    && a.Place? && a.payload.side.Buy? && a.payload.quantity == 0.00000001 && a.payload.price == 0.6
    && b.Place? && b.payload.side.Buy? && b.payload.quantity == 0.00000002 && b.payload.price == 0.7
    && !b.payload.timeInForce.Ioc? && a.payload.accountId == b.payload.accountId && a.orderId != b.orderId
    && a.payload.idempotencyKey != b.payload.idempotencyKey && a.payload.clientOrderId != b.payload.clientOrderId
    && HalfFill(e, b.orderId) && HalfFill(f, b.orderId)
    && e.eventId != f.eventId && ExecutionKey(e) != ExecutionKey(f)
  }

  predicate HalfFill(e: BrokerEvent, id: Uuid) {
    && e.kind.PartialFill? && e.orderId == id && e.quantity == 0.00000001 && e.price == Some(0.7)
    && e.executionId.Some? && e.executionId.value != ""
  }

  /** The arithmetic of the example: two buys and two fills later, nothing is reserved for a buy worth 0.6 units. */
  lemma ExampleAmounts()
    ensures Clean(Scale8, 0.00000001) && Clean(Scale8, 0.00000002) && Clean(Scale8, 0.6) && Clean(Scale8, 0.7) && Clean(Scale8, 1.0)
    ensures Notional(0.00000001, 0.6) == 0.000000006 && Notional(0.00000002, 0.7) == 0.000000014 && Notional(0.00000001, 0.7) == 0.000000007
    ensures Stored(Scale8, 0.000000006) == 0.00000001 && Stored(Scale8, 0.000000024) == 0.00000002
    ensures Stored(Scale8, 0.000000013) == 0.00000001 && Stored(Scale8, 0.000000003) == 0.0
    ensures Stored(Scale8, -0.000000006) == -0.00000001
  {
    assert Nearest(1.0) == 1 && Nearest(2.0) == 2 && Nearest(60000000.0) == 60000000 && Nearest(70000000.0) == 70000000;
    assert Nearest(100000000.0) == 100000000 && Nearest(0.6) == 1 && Nearest(2.4) == 2 && Nearest(1.3) == 1 && Nearest(0.3) == 0;
    assert Nearest(-0.6) == -1;
  }

  /** Where the example stands after its two buys. */
  ghost predicate TwoBuys(db: Db, a: Command, b: Command) {
    && a.Place? && b.Place?
    && db.orders == map[a.orderId := NewOrder(a.payload, a.expiry).(status := Routed),
                        b.orderId := NewOrder(b.payload, b.expiry).(status := Routed)]
    && a.payload.accountId in db.accounts && db.accounts[a.payload.accountId].reserved == 0.00000002
    && db.processed == map[] && db.fills == []
  }

  lemma ExampleIsClean(a: Command, b: Command, e: BrokerEvent, f: BrokerEvent)
    requires RoutingExample(a, b, e, f)
    ensures CleanCommand(Scale8, a) && CleanCommand(Scale8, b) && CleanCommand(Scale8, Handle(e)) && CleanCommand(Scale8, Handle(f))
  {
    ExampleAmounts();
    hide Stored;
  }

  lemma SecondIsPlaceable(db: Db, a: Command, b: Command, e: BrokerEvent, f: BrokerEvent)
    requires RoutingExample(a, b, e, f) && CleanCommand(Scale8, b)
    requires db.orders == map[a.orderId := NewOrder(a.payload, a.expiry).(status := Routed)]
    requires a.payload.accountId in db.accounts && db.accounts[a.payload.accountId].Available() >= 0.5
    requires Notional(b.payload.quantity, b.payload.price) <= 0.5
    ensures Placeable(Scale8, db, b)
  {
    hide Stored;
    hide Notional;
    hide HalfFill;
  }

  lemma TwoBuysReached(userId: string, a: Command, b: Command, e: BrokerEvent, f: BrokerEvent) returns (db: Db)
    requires RoutingExample(a, b, e, f)
    ensures Reachable(Scale8, db) && TwoBuys(db, a, b)
  {
    ExampleAmounts();
    ExampleIsClean(a, b, e, f);
    var funded := Funded(a.payload.accountId, userId);
    hide Stored;
    hide Notional;
    hide CleanCommand;
    hide Reachable;
    hide Placeable;
    hide HalfFill;
    FirstIsPlaceable(funded, a, userId);
    ReachableInv(Scale8, funded);
    hide Inv;
    Placed(Scale8, funded, a);
    PathGrows(Scale8, funded, a);
    var one := Step(Scale8, funded, a).db;
    hide Step;
    SecondIsPlaceable(one, a, b, e, f);
    ReachableInv(Scale8, one);
    Placed(Scale8, one, b);
    PathGrows(Scale8, one, b);
    db := Step(Scale8, one, b).db;
  }

  /** One of the two half fills: the order keeps working after the first, and the reservation shrinks as stored. */
  lemma HalfFilled(db: Db, e: BrokerEvent, a: Uuid)
    requires Inv(Scale8, db) && e.orderId in db.orders && HalfFill(e, e.orderId) && CleanCommand(Scale8, Handle(e))
    requires e.eventId !in db.processed && FillIsFresh(db.fills, e.eventId, ExecutionKey(e))
    requires var o := db.orders[e.orderId];
      && Working(o.status) && o.side.Buy? && !o.timeInForce.Ioc? && o.price == 0.7 && o.remaining >= 0.00000001
      && o.accountId in db.accounts && db.accounts[o.accountId].reserved >= 0.000000007
    requires a in db.orders && a != e.orderId
    ensures var o, db' := db.orders[e.orderId], Step(Scale8, db, Handle(e)).db;
      && e.orderId in db'.orders && db'.orders[e.orderId].remaining == o.remaining - 0.00000001
      && SameIdentity(o, db'.orders[e.orderId])
      && (o.remaining > 0.00000001 ==> Working(db'.orders[e.orderId].status))
      && a in db'.orders && db'.orders[a] == db.orders[a]
      && o.accountId in db'.accounts
      && db'.accounts[o.accountId].reserved == Stored(Scale8, db.accounts[o.accountId].reserved - 0.000000007)
      && db'.processed.Keys == db.processed.Keys + {e.eventId}
      && (|db'.fills| == |db.fills| + 1 && db.fills <= db'.fills
          && db'.fills[|db.fills|].eventId == e.eventId && db'.fills[|db.fills|].executionId == ExecutionKey(e))
  {
    hide Inv;
    hide Stored;
    hide CleanCommand;
    hide FillIsFresh;
    assert Notional(0.00000001, 0.7) == 0.000000007;
    hide Notional;
    FilledAtLimit(Scale8, db, e);
    hide Step;
  }

  /** Where the example stands after the first half fill. */
  ghost predicate OneHalf(db: Db, a: Command, b: Command, e: BrokerEvent)
    requires a.Place? && b.Place?
  {
    && a.orderId in db.orders && db.orders[a.orderId] == NewOrder(a.payload, a.expiry).(status := Routed)
    && b.orderId in db.orders
    && (var o := db.orders[b.orderId];
        Working(o.status) && o.side.Buy? && !o.timeInForce.Ioc? && o.price == 0.7 && o.remaining == 0.00000001
        && o.accountId == a.payload.accountId)
    && a.payload.accountId in db.accounts && db.accounts[a.payload.accountId].reserved == 0.00000001
    && db.processed.Keys == {e.eventId}
    && |db.fills| == 1 && db.fills[0].eventId == e.eventId && db.fills[0].executionId == ExecutionKey(e)
  }

  lemma FirstHalf(db: Db, a: Command, b: Command, e: BrokerEvent, f: BrokerEvent)
    requires RoutingExample(a, b, e, f) && CleanCommand(Scale8, Handle(e)) && Inv(Scale8, db) && TwoBuys(db, a, b)
    requires Stored(Scale8, 0.000000013) == 0.00000001
    ensures OneHalf(Step(Scale8, db, Handle(e)).db, a, b, e)
  {
    hide Stored;
    hide CleanCommand;
    hide Inv;
    hide Step;
    hide HalfFill;
    HalfIsFor(e, b.orderId);
    HalfFilled(db, e, a.orderId);
  }

  lemma HalfIsFor(e: BrokerEvent, id: Uuid)
    requires HalfFill(e, id)
    ensures e.orderId == id
  {
  }

  lemma SecondHalf(db: Db, a: Command, b: Command, e: BrokerEvent, f: BrokerEvent)
    requires RoutingExample(a, b, e, f) && CleanCommand(Scale8, Handle(f)) && Inv(Scale8, db) && OneHalf(db, a, b, e)
    requires Stored(Scale8, 0.000000003) == 0.0
    ensures var after := Step(Scale8, db, Handle(f)).db;
      && a.orderId in after.orders && after.orders[a.orderId] == NewOrder(a.payload, a.expiry).(status := Routed)
      && a.payload.accountId in after.accounts && after.accounts[a.payload.accountId].reserved == 0.0
  {
    hide Stored;
    hide CleanCommand;
    hide Inv;
    hide Step;
    hide HalfFill;
    HalfIsFor(f, b.orderId);
    FreshAfterOne(db, e, f);
    HalfFilled(db, f, a.orderId);
  }

  /** After the two half fills the account has nothing reserved, and the first buy is still routed. */
  lemma HalvesFilled(placed: Db, a: Command, b: Command, e: BrokerEvent, f: BrokerEvent) returns (db: Db)
    requires RoutingExample(a, b, e, f) && Reachable(Scale8, placed) && TwoBuys(placed, a, b)
    ensures Reachable(Scale8, db)
    ensures a.orderId in db.orders && db.orders[a.orderId] == NewOrder(a.payload, a.expiry).(status := Routed)
    ensures a.payload.accountId in db.accounts && db.accounts[a.payload.accountId].reserved == 0.0
  {
    ExampleAmounts();
    ExampleIsClean(a, b, e, f);
    hide Stored;
    hide Notional;
    hide CleanCommand;
    hide Reachable;
    hide Inv;
    hide Step;
    hide HalfFill;
    hide TwoBuys;
    hide OneHalf;
    ReachableInv(Scale8, placed);
    FirstHalf(placed, a, b, e, f);
    PathGrows(Scale8, placed, Handle(e));
    var half := Step(Scale8, placed, Handle(e)).db;
    ReachableInv(Scale8, half);
    SecondHalf(half, a, b, e, f);
    PathGrows(Scale8, half, Handle(f));
    db := Step(Scale8, half, Handle(f)).db;
  }

  lemma FreshAfterOne(db: Db, e: BrokerEvent, f: BrokerEvent)
    requires |db.fills| == 1 && db.fills[0].eventId == e.eventId && db.fills[0].executionId == ExecutionKey(e)
    requires e.eventId != f.eventId && ExecutionKey(e) != ExecutionKey(f)
    ensures FillIsFresh(db.fills, f.eventId, ExecutionKey(f))
  {
  }

  /**
   * A failed submission that cannot be recorded is reachable: after two half fills of the second buy the
   * reservation of the first has been rounded away, the subtraction is stored as a negative amount, the
   * table refuses it, and the order stays routed.
   */
  lemma RoundingBlocksRoutingFailure(userId: string, a: Command, b: Command, e: BrokerEvent, f: BrokerEvent, reason: string)
    returns (db: Db)
    requires RoutingExample(a, b, e, f)
    ensures Reachable(Scale8, db) && a.orderId in db.orders && db.orders[a.orderId].status.Routed?
    ensures Step(Scale8, db, RoutingFailed(a.orderId, reason)) == Result(db, Fail(ConstraintViolation))
  {
    ExampleAmounts();
    var placed := TwoBuysReached(userId, a, b, e, f);
    hide TwoBuys;
    hide Stored;
    hide Notional;
    hide Reachable;
    hide Inv;
    hide Step;
    db := HalvesFilled(placed, a, b, e, f);
    ReachableInv(Scale8, db);
    RoutingFailureCommitsIff(Scale8, db, a.orderId, reason);
    RefusedUnchanged(Scale8, db, RoutingFailed(a.orderId, reason));
    hide HalfFill;
  }
}
