/**
 * Fills with more than eight decimals. Event validation lets them through; rounded storage then breaks what
 * eight decimals keep. Here is exactly what such a fill does to the reservation ledger and to the order's
 * row, when it does no harm, and two reachable examples of the harm.
 */
module FineFills {
  import opened Types
  import opened Numeric
  import opened Tables
  import opened OrderRules
  import opened Transactions
  import opened Invariant
  import opened Steps
  import opened Guards
  import opened Rounding
  import InvariantKept
  import Lifecycle
  import PositionRules
  import Sums

  // ---------- any fill that commits ----------

  /** A fill whose rows pass their checks as stored, and whose account pays, commits whatever its decimals. */
  lemma CheckedFillCommits(m: Storage, db: Db, e: BrokerEvent)
    requires Inv(m, db) && e.orderId in db.orders && e.eventId !in db.processed && IsFill(e) && WellFormed(e)
    requires GuardFill(db.orders[e.orderId], e).Take? && FillIsFresh(db.fills, e.eventId, ExecutionKey(e))
    requires Stored(m, e.quantity) > 0.0 && Clean(m, e.price.value)
    requires var o, q, p := db.orders[e.orderId], e.quantity, e.price.value;
      && o.filled + q != 0.0
      && OrderChecks(StoreOrder(m, WithFill(o, q, p))) && OrderChecks(StoreOrder(m, CancelledOrder(WithFill(o, q, p))))
      && o.accountId in db.accounts && Pays(m, db.accounts[o.accountId], o, q, p)
    ensures Step(m, db, Handle(e)).outcome == Ok(Applied(true))
  {
    hide Inv;
    hide Stored;
    var o := db.orders[e.orderId];
    ExecutePassesChecks(m, db, o.Key(), PositionRules.Trade(o.side, e.quantity, e.price.value));
    hide OrderChecks;
    hide PositionChecks;
    hide Pays;
    hide WithFill;
    hide Notional;
    hide FillAccount;
    hide FillVerdict;
    hide FillIsFresh;
    hide Execute;
    hide StoreOrder;
    hide Commit;
    FillVerdictIff(m, e, ViewOf(db, Handle(e)));
    FillAnswers(m, e, ViewOf(db, Handle(e)));
  }

  /** The order and account rows after any fill that commits. */
  lemma FillCommitted(m: Storage, db: Db, e: BrokerEvent)
    requires e.orderId in db.orders && e.eventId !in db.processed && IsFill(e) && WellFormed(e)
    requires GuardFill(db.orders[e.orderId], e).Take? && Step(m, db, Handle(e)).outcome.Ok?
    ensures var o, q, p, after := db.orders[e.orderId], e.quantity, e.price.value, Step(m, db, Handle(e)).db;
      && o.filled + q != 0.0 && o.accountId in db.accounts && FillAccount(db.accounts[o.accountId], o, q, p).Some?
      && OrderChecks(StoreOrder(m, FillOutcome(o, q, p))) && Stored(m, q) > 0.0
      && after.orders == db.orders[e.orderId := StoreOrder(m, FillOutcome(o, q, p))]
      && after.accounts == db.accounts[o.accountId := StoreAccount(m, FillAccount(db.accounts[o.accountId], o, q, p).value)]
  {
    hide FillAccount;
    hide FillVerdict;
    hide Execute;
    hide AccountChecks;
    hide OrderChecks;
    hide StoreAccount;
    Lifecycle.FillRecords(m, e, ViewOf(db, Handle(e)));
    FillWrites(m, e, ViewOf(db, Handle(e)));
    FillKeepsAccount(db.orders[e.orderId], e.quantity, e.price.value);
    hide FillOutcome;
    hide StoreOrder;
  }

  /** How far storing moves a value. */
  function Slip(m: Storage, x: real): real { Stored(m, x) - x }

  /** How far a fill moves the reservation of its account away from what the open orders hold. */
  function LedgerSlip(m: Storage, a: Account, o: Order, q: real): real {
    if o.side.Sell? then 0.0
    else if o.timeInForce.Ioc? || q == o.remaining then Slip(m, a.reserved - Released(o, q))
    else Slip(m, a.reserved - Released(o, q)) - Notional(Slip(m, o.remaining - q), o.price)
  }

  lemma ReservedAfter(m: Storage, a: Account, o: Order, q: real, p: real)
    requires OrderOk(m, o) && Working(o.status) && 0.0 < q <= o.remaining && p > 0.0
    requires FillAccount(a, o, q, p).Some?
    ensures FillAccount(a, o, q, p).value.reserved == a.reserved - if o.side.Buy? then Released(o, q) else 0.0
  {
    FillNotionals(m, o, q, p);
    ClosedChecks(m, o);
    var o1 := WithFill(o, q, p);
    assert o1.remaining == 0.0 ==> RemainingNotional(o1) == 0.0;
    hide OrderOk;
    hide Held;
    hide WithFill;
    hide Notional;
  }

  lemma HeldAfter(m: Storage, o: Order, q: real, p: real)
    requires OrderOk(m, o) && Working(o.status) && 0.0 < q <= o.remaining
    ensures o.filled + q != 0.0
    ensures Held(StoreOrder(m, FillOutcome(o, q, p)), o.accountId) ==
      if o.side.Sell? || o.timeInForce.Ioc? || q == o.remaining then 0.0 else Notional(Stored(m, o.remaining - q), o.price)
  {
    hide Stored;
    hide ValueFilled;
    hide Notional;
  }

  lemma SlipOfNotional(m: Storage, r: real, q: real, price: real)
    ensures Notional(Stored(m, r - q), price) == Notional(r, price) - Notional(q, price) + Notional(Slip(m, r - q), price)
  {
    hide Stored;
    assert (r - q + Slip(m, r - q)) * price == r * price - q * price + Slip(m, r - q) * price;
  }

  /**
   * Whatever its decimals, a fill that commits moves the drift of its account by exactly LedgerSlip: so it
   * keeps the bound of half a unit per transaction if and only if LedgerSlip, which can be read from the rows
   * and the event before the call, is within half a unit.
   */
  lemma FillMovesLedgerBy(m: Storage, db: Db, e: BrokerEvent)
    requires Inv(m, db) && e.orderId in db.orders && e.eventId !in db.processed && IsFill(e) && WellFormed(e)
    requires GuardFill(db.orders[e.orderId], e).Take? && Step(m, db, Handle(e)).outcome.Ok?
    ensures var o, after := db.orders[e.orderId], Step(m, db, Handle(e)).db;
      && o.accountId in db.accounts && o.accountId in after.accounts
      && Drift(after, o.accountId) - Drift(db, o.accountId) == LedgerSlip(m, db.accounts[o.accountId], o, e.quantity)
      && (Within(m, Drift(after, o.accountId) - Drift(db, o.accountId), 1.0) <==>
          Within(m, LedgerSlip(m, db.accounts[o.accountId], o, e.quantity), 1.0))
  {
    hide Inv;
    hide Step;
    hide FillAccount;
    hide FillOutcome;
    hide StoreOrder;
    hide Stored;
    hide Within;
    var o, q, p := db.orders[e.orderId], e.quantity, e.price.value;
    FillCommitted(m, db, e);
    var a := db.accounts[o.accountId];
    AccountIsKnown(m, db, e.orderId);
    ReservedAfter(m, a, o, q, p);
    HeldAfter(m, o, q, p);
    InvariantKept.HeldByUpdate(db.orders, e.orderId, StoreOrder(m, FillOutcome(o, q, p)), o.accountId);
    HoldsWhatItGivesBack(m, o);
    SlipOfNotional(m, o.remaining, q, o.price);
    hide OrderOk;
    hide Notional;
    hide HeldBy;
    hide Held;
  }

  lemma FillRowOk(m: Storage, o: Order, q: real, p: real)
    requires OrderOk(m, o) && Working(o.status) && 0.0 < q <= o.remaining && Stored(m, q) > 0.0
    requires OrderChecks(StoreOrder(m, FillOutcome(o, q, p)))
    ensures OrderOk(m, StoreOrder(m, FillOutcome(o, q, p))) <==> q == o.remaining || Stored(m, o.remaining - q) > 0.0
    ensures StoreOrder(m, FillOutcome(o, q, p)).filled == o.filled + Stored(m, q)
  {
    var f := FillOutcome(o, q, p);
    StoredShift(m, q, o.filled);
    StoredIsClean(m, o.filled + q);
    StoredIsClean(m, f.remaining);
    StoredIsClean(m, f.cancelled);
    StoredIsClean(m, f.average.value);
    CleanZero(m);
    hide Stored;
    hide ValueFilled;
    hide Notional;
  }

  /**
   * Whatever its decimals, a fill that commits adds its stored quantity to what is filled, and leaves an order
   * whose status fits its quantities if and only if it takes everything or what it leaves is not stored as
   * nothing.
   */
  lemma FillKeepsOrderIff(m: Storage, db: Db, e: BrokerEvent)
    requires Inv(m, db) && e.orderId in db.orders && e.eventId !in db.processed && IsFill(e) && WellFormed(e)
    requires GuardFill(db.orders[e.orderId], e).Take? && Step(m, db, Handle(e)).outcome.Ok?
    ensures var o, q, after := db.orders[e.orderId], e.quantity, Step(m, db, Handle(e)).db;
      && e.orderId in after.orders
      && after.orders[e.orderId].filled == o.filled + Stored(m, q)
      && (OrderOk(m, after.orders[e.orderId]) <==> q == o.remaining || Stored(m, o.remaining - q) > 0.0)
  {
    hide Inv;
    hide Step;
    hide FillAccount;
    hide FillOutcome;
    hide StoreOrder;
    hide Stored;
    var o := db.orders[e.orderId];
    FillCommitted(m, db, e);
    OrderOf(m, db, e.orderId);
    FillRowOk(m, o, e.quantity, e.price.value);
    hide OrderOk;
  }

  // ---------- an order with nothing left ----------

  lemma NothingLeftVerdict(m: Storage, e: BrokerEvent, v: View)
    requires v.order.Some? && v.order.value.remaining == 0.0 && HandleVerdict(m, e, v).Write?
    ensures var c := HandleVerdict(m, e, v).change;
      c.account.None? && c.orderId == e.orderId && c.order.remaining == 0.0
  {
    hide Stored;
    hide FillVerdict;
    hide AccountChecks;
    hide OrderChecks;
  }

  /**
   * An order that has nothing left to fill never gives anything back: whatever the broker sends for it, the
   * accounts stay as they are and nothing is left again.
   */
  lemma NothingLeftReleasesNothing(m: Storage, db: Db, e: BrokerEvent)
    requires e.orderId in db.orders && db.orders[e.orderId].remaining == 0.0
    ensures var after := Step(m, db, Handle(e)).db;
      && after.accounts == db.accounts && e.orderId in after.orders && after.orders[e.orderId].remaining == 0.0
  {
    CleanZero(m);
    hide Stored;
    hide HandleVerdict;
    var v := ViewOf(db, Handle(e));
    if HandleVerdict(m, e, v).Write? {
      NothingLeftVerdict(m, e, v);
    }
  }

  // ---------- reachable examples ----------

  /** A buy of two steps at 1000, and a fill of part of it. */
  predicate FineExample(c: Command, e: BrokerEvent, q: real) {
    && c.Place? && c.payload.side.Buy? && c.payload.quantity == 0.00000002 && c.payload.price == 1000.0
    && !c.payload.timeInForce.Ioc?
    && e.kind.PartialFill? && e.orderId == c.orderId && e.quantity == q && e.price == Some(1000.0)
    && e.executionId.Some? && e.executionId.value != ""
  }

  lemma FineAmounts()
    ensures Clean(Scale8, 0.0) && Clean(Scale8, 0.00000002) && Clean(Scale8, 1000.0) && Clean(Scale8, 1.0)
    ensures Stored(Scale8, 0.00002) == 0.00002 && Notional(0.00000002, 1000.0) == 0.00002
  {
    assert Nearest(0.0) == 0 && Nearest(2.0) == 2 && Nearest(2000.0) == 2000;
    assert Nearest(100000000000.0) == 100000000000 && Nearest(100000000.0) == 100000000;
  }

  /** 1.3 steps are stored as one, and so are the 0.7 steps they leave. */
  lemma AmountsOf13()
    ensures Notional(0.000000013, 1000.0) == 0.000013
    ensures Stored(Scale8, 0.000000013) == 0.00000001 && Stored(Scale8, 0.000000007) == 0.00000001
    ensures Stored(Scale8, 0.000007) == 0.000007 && Stored(Scale8, 0.999987) == 0.999987
  {
    assert Nearest(1.3) == 1 && Nearest(0.7) == 1 && Nearest(700.0) == 700 && Nearest(99998700.0) == 99998700;
  }

  /** 1.7 steps are stored as two, and the 0.3 steps they leave as nothing. */
  lemma AmountsOf17()
    ensures Notional(0.000000017, 1000.0) == 0.000017
    ensures Stored(Scale8, 0.000000017) == 0.00000002 && Stored(Scale8, 0.000000003) == 0.0
    ensures Stored(Scale8, 0.000003) == 0.000003 && Stored(Scale8, 0.999983) == 0.999983
  {
    assert Nearest(1.7) == 2 && Nearest(0.3) == 0 && Nearest(300.0) == 300 && Nearest(99998300.0) == 99998300;
  }

  /** The example's order, and its account, before the fill. */
  ghost predicate FinePlaced(db: Db, c: Command) {
    && c.Place?
    && db.orders == map[c.orderId := NewOrder(c.payload, c.expiry).(status := Routed)]
    && c.payload.accountId in db.accounts
    && db.accounts[c.payload.accountId].reserved == 0.00002 && db.accounts[c.payload.accountId].cash == 1.0
    && db.processed == map[] && db.fills == []
  }

  lemma FineReached(userId: string, c: Command, e: BrokerEvent, q: real) returns (db: Db)
    requires FineExample(c, e, q)
    ensures Reachable(Scale8, db) && FinePlaced(db, c) && db.accounts[c.payload.accountId].version == 2
  {
    FineAmounts();
    var funded := Funded(c.payload.accountId, userId);
    assert CleanCommand(Scale8, c);
    hide Stored;
    hide Notional;
    hide CleanCommand;
    hide Reachable;
    hide Placeable;
    FirstIsPlaceable(funded, c, userId);
    ReachableInv(Scale8, funded);
    hide Inv;
    Placed(Scale8, funded, c);
    PathGrows(Scale8, funded, c);
    db := Step(Scale8, funded, c).db;
    hide Step;
  }

  /** The facts of the example that the guard and the checks look at. */
  lemma FineFacts(db: Db, c: Command, e: BrokerEvent, q: real)
    requires FineExample(c, e, q) && FinePlaced(db, c) && 0.0 < q < 0.00000002
    ensures e.orderId in db.orders && e.eventId !in db.processed && IsFill(e) && WellFormed(e)
    ensures GuardFill(db.orders[e.orderId], e).Take? && FillIsFresh(db.fills, e.eventId, ExecutionKey(e))
    ensures e.orderId == c.orderId && db.orders[c.orderId] == NewOrder(c.payload, c.expiry).(status := Routed)
    ensures e.quantity == q && e.price.value == 1000.0 && c.payload.accountId in db.accounts
    ensures db.orders.Keys == {c.orderId}
  {
  }

  /** The stored order still adds up, whether the remainder is cancelled or not. */
  lemma FineOrder(c: Command, q: real)
    requires c.Place? && c.payload.side.Buy? && c.payload.quantity == 0.00000002 && c.payload.price == 1000.0
    requires 0.0 < q < 0.00000002
    requires Stored(Scale8, q) + Stored(Scale8, 0.00000002 - q) == 0.00000002
    ensures var o1 := WithFill(NewOrder(c.payload, c.expiry).(status := Routed), q, 1000.0);
      OrderChecks(StoreOrder(Scale8, o1)) && OrderChecks(StoreOrder(Scale8, CancelledOrder(o1)))
  {
    FineAmounts();
    StoredSign(Scale8, q);
    StoredSign(Scale8, 0.00000002 - q);
    StoredMonotone(Scale8, q, 0.00000002);
    hide Stored;
    hide Notional;
  }

  lemma FineAccount(a: Account, o: Order, q: real)
    requires o.side.Buy? && o.price == 1000.0 && o.filled == 0.0 && !o.timeInForce.Ioc? && a.reserved == 0.00002 && a.cash == 1.0
    requires 0.0 < Notional(q, 1000.0) < 0.00002 && q > 0.0
    ensures Pays(Scale8, a, o, q, 1000.0)
    ensures FillAccount(a, o, q, 1000.0) ==
      Some(a.(reserved := 0.00002 - Notional(q, 1000.0), cash := 1.0 - Notional(q, 1000.0), version := a.version + 1))
  {
    var b := a.(reserved := 0.00002 - Notional(q, 1000.0), cash := 1.0 - Notional(q, 1000.0), version := a.version + 1);
    StoringKeepsChecks(Scale8, b);
    hide Stored;
    hide Notional;
    hide WithFill;
    hide StoreAccount;
  }

  /** The fill passes every check. */
  lemma FineApplied(db: Db, c: Command, e: BrokerEvent, q: real)
    requires FineExample(c, e, q) && Inv(Scale8, db) && FinePlaced(db, c) && 0.0 < q < 0.00000002
    requires Stored(Scale8, q) > 0.0 && Stored(Scale8, q) + Stored(Scale8, 0.00000002 - q) == 0.00000002
    requires 0.0 < Notional(q, 1000.0) < 0.00002
    ensures Step(Scale8, db, Handle(e)).outcome == Ok(Applied(true))
  {
    FineFacts(db, c, e, q);
    FineAmounts();
    FineOrder(c, q);
    FineAccount(db.accounts[c.payload.accountId], db.orders[c.orderId], q);
    hide Inv;
    hide Step;
    hide Stored;
    hide OrderChecks;
    hide Pays;
    hide Notional;
    hide FillIsFresh;
    hide WithFill;
    hide StoreOrder;
    hide GuardFill;
    hide ViewOf;
    hide WellFormed;
    CheckedFillCommits(Scale8, db, e);
  }

  /** It leaves the rows it computes, as stored. */
  lemma FineCommits(db: Db, c: Command, e: BrokerEvent, q: real)
    requires FineExample(c, e, q) && FinePlaced(db, c) && 0.0 < q < 0.00000002
    requires 0.0 < Notional(q, 1000.0) < 0.00002 && Step(Scale8, db, Handle(e)).outcome == Ok(Applied(true))
    ensures var after := Step(Scale8, db, Handle(e)).db; var o := NewOrder(c.payload, c.expiry).(status := Routed);
      && after.orders.Keys == {c.orderId} && after.orders[c.orderId] == StoreOrder(Scale8, FillOutcome(o, q, 1000.0))
      && c.payload.accountId in after.accounts
      && after.accounts[c.payload.accountId].reserved == Stored(Scale8, 0.00002 - Notional(q, 1000.0))
      && after.accounts[c.payload.accountId].version == db.accounts[c.payload.accountId].version + 1
  {
    FineFacts(db, c, e, q);
    FineAccount(db.accounts[c.payload.accountId], db.orders[c.orderId], q);
    FillCommitted(Scale8, db, e);
    hide Step;
    hide Stored;
    hide OrderChecks;
    hide Pays;
    hide Notional;
    hide FillAccount;
    hide FillIsFresh;
    hide FillOutcome;
    hide StoreOrder;
    hide GuardFill;
    hide WellFormed;
  }

  /** Nothing has drifted before the fill. */
  lemma FineStart(db: Db, c: Command)
    requires FinePlaced(db, c) && c.payload.side.Buy? && c.payload.quantity == 0.00000002 && c.payload.price == 1000.0
    ensures Drift(db, c.payload.accountId) == 0.0
  {
    FineAmounts();
    OneHeld(db.orders, c.orderId, c.payload.accountId);
    hide HeldBy;
    hide Stored;
    hide Notional;
  }

  lemma OneHeld(orders: map<Uuid, Order>, id: Uuid, a: Uuid)
    requires orders.Keys == {id}
    ensures HeldBy(orders, a) == Held(orders[id], a)
  {
    hide Held;
    Sums.SumWithout(HeldMap(orders, a), id);
    assert HeldMap(orders, a) - {id} == map[];
  }

  /**
   * Reachable: a fill of 0.000000013 on a buy of 0.00000002 at 1000 is applied and moves the ledger by 300
   * units of 10^-8. What the order still holds is then more than the account has reserved for it.
   */
  lemma FineFillsBreakTheLedger(userId: string, c: Command, e: BrokerEvent) returns (db: Db)
    requires FineExample(c, e, 0.000000013)
    ensures Reachable(Scale8, db) && WellFormed(e) && Step(Scale8, db, Handle(e)).outcome == Ok(Applied(true))
    ensures var after, a := Step(Scale8, db, Handle(e)).db, c.payload.accountId;
      && a in db.accounts && a in after.accounts && Drift(db, a) == 0.0 && Drift(after, a) == -0.000003
      && !LedgerInv(Scale8, after)
  {
    FineAmounts();
    AmountsOf13();
    db := FineReached(userId, c, e, 0.000000013);
    hide Reachable;
    hide Inv;
    hide Step;
    hide Stored;
    hide Notional;
    ReachableInv(Scale8, db);
    FineFacts(db, c, e, 0.000000013);
    FineStart(db, c);
    FineApplied(db, c, e, 0.000000013);
    FineCommits(db, c, e, 0.000000013);
    FillMovesLedgerBy(Scale8, db, e);
    FineSlip13(db.accounts[c.payload.accountId], db.orders[c.orderId]);
    hide Drift;
    hide LedgerSlip;
    hide StoreOrder;
    hide FillOutcome;
    hide LedgerInv;
    if LedgerInv(Scale8, Step(Scale8, db, Handle(e)).db) {
      LedgerSays(Scale8, Step(Scale8, db, Handle(e)).db, c.payload.accountId);
      assert false;
    }
  }

  lemma LedgerSays(m: Storage, db: Db, a: Uuid)
    requires LedgerInv(m, db) && a in db.accounts
    ensures db.accounts[a].version >= 1 && Within(m, Drift(db, a), (db.accounts[a].version - 1) as real)
  {
    hide Drift;
    hide Within;
    hide Stored;
  }

  lemma FineSlip13(a: Account, o: Order)
    requires o.side.Buy? && !o.timeInForce.Ioc? && o.remaining == 0.00000002 && o.price == 1000.0 && a.reserved == 0.00002
    ensures LedgerSlip(Scale8, a, o, 0.000000013) == -0.000003
  {
    AmountsOf13();
    hide Stored;
  }

  /**
   * Reachable: a fill of 0.000000017 on the same buy is applied and leaves the order partially filled with
   * nothing left, while 300 units stay reserved that nothing holds and nothing will release.
   */
  lemma FineFillsStrandAReservation(userId: string, c: Command, e: BrokerEvent) returns (db: Db)
    requires FineExample(c, e, 0.000000017)
    ensures Reachable(Scale8, db) && WellFormed(e) && Step(Scale8, db, Handle(e)).outcome == Ok(Applied(true))
    ensures var after, a := Step(Scale8, db, Handle(e)).db, c.payload.accountId;
      && c.orderId in after.orders && after.orders[c.orderId].status.PartiallyFilled? && after.orders[c.orderId].remaining == 0.0
      && !OrderOk(Scale8, after.orders[c.orderId])
      && a in after.accounts && after.accounts[a].reserved == 0.000003 && HeldBy(after.orders, a) == 0.0
  {
    AmountsOf17();
    db := FineReached(userId, c, e, 0.000000017);
    hide Reachable;
    hide Inv;
    hide Step;
    hide Stored;
    hide Notional;
    ReachableInv(Scale8, db);
    FineFacts(db, c, e, 0.000000017);
    FineApplied(db, c, e, 0.000000017);
    FineCommits(db, c, e, 0.000000017);
    FineLeft17(Step(Scale8, db, Handle(e)).db, c);
    hide FineExample;
    hide FinePlaced;
    hide FillOutcome;
    hide StoreOrder;
    hide OrderOk;
    hide HeldBy;
  }

  lemma FineLeft17(after: Db, c: Command)
    requires c.Place? && c.payload.side.Buy? && c.payload.quantity == 0.00000002 && c.payload.price == 1000.0
    requires !c.payload.timeInForce.Ioc? && after.orders.Keys == {c.orderId}
    requires after.orders[c.orderId] ==
      StoreOrder(Scale8, FillOutcome(NewOrder(c.payload, c.expiry).(status := Routed), 0.000000017, 1000.0))
    ensures after.orders[c.orderId].status.PartiallyFilled? && after.orders[c.orderId].remaining == 0.0
    ensures !OrderOk(Scale8, after.orders[c.orderId]) && HeldBy(after.orders, c.payload.accountId) == 0.0
  {
    FineRow17(c);
    hide FillOutcome;
    hide StoreOrder;
    hide OrderOk;
    hide Held;
    OneHeld(after.orders, c.orderId, c.payload.accountId);
    hide HeldBy;
  }

  lemma FineRow17(c: Command)
    requires c.Place? && c.payload.side.Buy? && c.payload.quantity == 0.00000002 && c.payload.price == 1000.0
    requires !c.payload.timeInForce.Ioc?
    ensures var s := StoreOrder(Scale8, FillOutcome(NewOrder(c.payload, c.expiry).(status := Routed), 0.000000017, 1000.0));
      s.status.PartiallyFilled? && s.remaining == 0.0 && !OrderOk(Scale8, s) && Held(s, c.payload.accountId) == 0.0
  {
    AmountsOf17();
    hide Stored;
    hide ValueFilled;
  }
}
