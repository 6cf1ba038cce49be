/**
 * What each transaction answers and writes, column by column: the answer by the rows the transaction finds,
 * every table afterwards, and nothing else changed.
 */
module Outcomes {
  import opened Types
  import opened Numeric
  import opened Tables
  import opened OrderRules
  import opened PositionRules
  import opened Transactions
  import opened Invariant
  import opened Steps
  import opened Guards

  // ---------- clients ----------

  /** No account may open twice, share its user with another, or open with less than nothing. */
  lemma OpeningAnswered(m: Storage, db: Db, id: Uuid, userId: string, cash: real)
    ensures Step(m, db, Open(id, userId, cash)) ==
      if id !in db.accounts && (forall x :: x in db.accounts ==> db.accounts[x].userId != userId) && Stored(m, cash) >= 0.0
      then Result(db.(accounts := db.accounts[id := Account(userId, Stored(m, cash), 0.0, 1)]), Ok(Done))
      else Result(db, Fail(DuplicateAccount))
  {
    CleanZero(m);
    hide Stored;
  }

  /** No order under the payload's account has its idempotency key or its client order id, and the order id is new. */
  predicate NewKeys(db: Db, p: Payload, id: Uuid) {
    && id !in db.orders
    && forall i :: i in db.orders && db.orders[i].accountId == p.accountId ==>
         db.orders[i].idempotencyKey != p.idempotencyKey && db.orders[i].clientOrderId != p.clientOrderId
  }

  /** The order a payload asks for, in the given status. */
  function Requested(p: Payload, expiry: int, status: Status, rejection: Option<string>): Order {
    Order(p.accountId, p.clientOrderId, p.idempotencyKey, p.symbol, p.side, p.orderType, p.timeInForce, p.quantity, p.price,
          match p.timeInForce case Day => Some(expiry) case Gtc => None case Ioc => None,
          0.0, 0.0, p.quantity, None, status, rejection)
  }

  /** The account with the cost of the order set aside. */
  function Reserving(m: Storage, a: Account, p: Payload): Account {
    a.(reserved := Stored(m, a.reserved + Notional(p.quantity, p.price)), version := a.version + 1)
  }

  /**
   * A new order for a known account is routed if and only if it sells, or the account's free cash covers it:
   * a buy then reserves its cost and the broker is asked once to work the order. Otherwise it is stored as
   * rejected, and neither the account nor the broker hears of it.
   */
  lemma PlacementAnswered(m: Storage, db: Db, p: Payload, id: Uuid, expiry: int)
    requires Inv(m, db) && CleanCommand(m, Place(p, id, expiry)) && p.quantity > 0.0 && p.price > 0.0
    requires p.accountId in db.accounts && NewKeys(db, p, id)
    ensures var a := db.accounts[p.accountId];
      Step(m, db, Place(p, id, expiry)) ==
        if p.side.Sell? || p.quantity * p.price <= a.cash - a.reserved then
          Result(db.(accounts := if p.side.Sell? then db.accounts
                                 else db.accounts[p.accountId := Reserving(m, a, p)],
                     orders := db.orders[id := Requested(p, expiry, Routed, None)],
                     audit := db.audit + [AuditEvent(id, OrderCreated, None, New),
                                          AuditEvent(id, OrderValidated, Some(New), Validated),
                                          AuditEvent(id, OrderRouted, Some(Validated), Routed)],
                     outbox := db.outbox + [Submit(BrokerOrder(id, p.symbol, p.side, p.timeInForce, p.quantity, p.quantity, p.price))]),
                 Ok(OrderIs(id)))
        else
          Result(db.(orders := db.orders[id := Requested(p, expiry, Rejected, Some("Insufficient buying power"))],
                     audit := db.audit + [AuditEvent(id, OrderCreated, None, New),
                                          AuditEvent(id, ValidationFailed, Some(New), Rejected)]),
                 Ok(OrderIs(id)))
  {
    hide Inv;
    AccountRowOk(m, db, p.accountId);
    NewKeysAreFree(db, p, id);
    PlacementJudged(m, p, id, expiry, ViewOf(db, Place(p, id, expiry)));
    RequestedIsStored(m, p, expiry);
    hide PlaceVerdict;
    hide FindByKey;
    hide ClientIdTaken;
    hide NewKeys;
    hide Requested;
    hide StoreOrder;
    hide Stored;
  }

  lemma RequestedIsStored(m: Storage, p: Payload, expiry: int)
    requires Clean(m, p.quantity) && Clean(m, p.price)
    ensures StoreOrder(m, Requested(p, expiry, Routed, None)) == Requested(p, expiry, Routed, None)
    ensures var r := Requested(p, expiry, Rejected, Some("Insufficient buying power")); StoreOrder(m, r) == r
  {
    CleanZero(m);
    hide Stored;
  }

  /** The verdict on a new order, as its rows. */
  lemma PlacementJudged(m: Storage, p: Payload, id: Uuid, expiry: int, v: View)
    requires Clean(m, p.quantity) && Clean(m, p.price) && p.quantity > 0.0 && p.price > 0.0
    requires v.account.Some? && v.sameKey.None? && !v.clientIdTaken && !v.orderIdTaken && AccountChecks(v.account.value)
    ensures var a := v.account.value;
      PlaceVerdict(m, p, id, expiry, v) ==
        if p.side.Sell? || p.quantity * p.price <= a.cash - a.reserved then
          Write(Change(id, Requested(p, expiry, Routed, None),
                       if p.side.Sell? then None
                       else Some(a.(reserved := a.reserved + Notional(p.quantity, p.price), version := a.version + 1)),
                       None, None, None,
                       [AuditEvent(id, OrderCreated, None, New), AuditEvent(id, OrderValidated, Some(New), Validated),
                        AuditEvent(id, OrderRouted, Some(Validated), Routed)],
                       [Submit(BrokerOrder(id, p.symbol, p.side, p.timeInForce, p.quantity, p.quantity, p.price))]),
                OrderIs(id))
        else
          Write(Change(id, Requested(p, expiry, Rejected, Some("Insufficient buying power")), None, None, None, None,
                       [AuditEvent(id, OrderCreated, None, New), AuditEvent(id, ValidationFailed, Some(New), Rejected)], []),
                OrderIs(id))
  {
    var a, o := v.account.value, NewOrder(p, expiry);
    NewOrderIsClean(m, p, expiry);
    StoreKeepsOrder(m, o);
    NonNegativeProduct(p.quantity, p.price);
    assert RequiredBuyingPower(p.side, p.quantity, p.price) == if p.side.Sell? then 0.0 else Notional(p.quantity, p.price);
    assert p.quantity * p.price == Notional(p.quantity, p.price) >= 0.0;
    hide Notional;
    hide RequiredBuyingPower;
    if p.side.Buy? && Notional(p.quantity, p.price) <= a.cash - a.reserved {
      StoringKeepsChecks(m, Reserve(a, o));
    }
    hide Stored;
    hide StoreOrder;
    hide StoreAccount;
  }

  lemma NewKeysAreFree(db: Db, p: Payload, id: Uuid)
    requires NewKeys(db, p, id)
    ensures FindByKey(db.orders, p.accountId, p.idempotencyKey).None? && !ClientIdTaken(db.orders, p.accountId, p.clientOrderId)
  {
  }

  /** The stored order says what the payload says. */
  predicate Says(o: Order, p: Payload) {
    && o.accountId == p.accountId && o.clientOrderId == p.clientOrderId && o.symbol == p.symbol && o.side == p.side
    && o.orderType == p.orderType && o.timeInForce == p.timeInForce && o.quantity == p.quantity && o.price == p.price
  }

  /**
   * Without an account nothing is placed. Under a key that is taken the answer is the order that has it, if
   * that order says the same, and a refusal otherwise; a client order id that is taken is refused as well.
   * None of this changes anything.
   */
  lemma PlacementRefused(m: Storage, db: Db, p: Payload, id: Uuid, expiry: int, other: Uuid)
    requires Inv(m, db)
    ensures p.accountId !in db.accounts ==> Step(m, db, Place(p, id, expiry)) == Result(db, Fail(AccountNotFound))
    ensures p.accountId in db.accounts && other in db.orders && db.orders[other].accountId == p.accountId ==>
      && (db.orders[other].idempotencyKey == p.idempotencyKey ==>
            Step(m, db, Place(p, id, expiry)) == Result(db, if Says(db.orders[other], p) then Ok(OrderIs(other)) else Fail(DuplicateOrder)))
      && ((forall i :: i in db.orders && db.orders[i].accountId == p.accountId ==> db.orders[i].idempotencyKey != p.idempotencyKey)
          && db.orders[other].clientOrderId == p.clientOrderId ==>
            Step(m, db, Place(p, id, expiry)) == Result(db, Fail(DuplicateOrder)))
  {
    hide AuditInv;
    hide FillsInv;
    hide LedgerInv;
    hide PositionsInv;
    hide OutboxInv;
    hide OrderOk;
    hide AccountChecks;
    hide OrderChecks;
    hide StoreOrder;
    hide StoreAccount;
    hide Reserve;
    hide Commit;
    hide NewOrder;
    hide RequiredBuyingPower;
  }

  /**
   * A client's cancellation by what it finds: an order at the broker becomes cancel-pending, and nothing else
   * about it changes, with one entry in its log and one call to the broker; one that is pending already is
   * answered again; one that is finished is refused.
   */
  lemma CancellationAnswered(m: Storage, db: Db, id: Uuid, reason: string)
    requires Inv(m, db)
    ensures var r := Step(m, db, RequestCancel(id, reason));
      if id !in db.orders then r == Result(db, Fail(OrderNotFound))
      else
        var o := db.orders[id];
        match o.status
        case Routed | PartiallyFilled =>
          r == Result(db.(orders := db.orders[id := o.(status := CancelPending)],
                          audit := db.audit + [AuditEvent(id, CancelRequested, Some(o.status), CancelPending)],
                          outbox := db.outbox + [CancelAtBroker(id, reason)]),
                      Ok(OrderIs(id)))
        case CancelPending => r == Result(db, Ok(OrderIs(id)))
        case Filled | Rejected | Cancelled => r == Result(db, Fail(InvalidCancellation))
        case New | Validated => false
  {
    hide Inv;
    hide Stored;
    if id in db.orders {
      OrderOf(m, db, id);
      StoreKeepsOrder(m, db.orders[id].(status := CancelPending));
    }
    hide StoreOrder;
  }

  /** What a closed order leaves of the account: a buy gives back the cost of what was left to fill. */
  function GivenBack(m: Storage, a: Account, o: Order): Account {
    if o.side.Buy? then a.(reserved := Stored(m, a.reserved - Notional(o.remaining, o.price)), version := a.version + 1) else a
  }

  lemma UnreservedIsGivenBack(m: Storage, a: Account, o: Order)
    requires Clean(m, a.cash)
    ensures o.side.Buy? ==> StoreAccount(m, Unreserve(a, RemainingNotional(o))) == GivenBack(m, a, o)
    ensures o.side.Sell? ==> GivenBack(m, a, o) == a
  {
    hide Stored;
    hide Notional;
  }

  /**
   * The record of a failed submission: an order that is no longer routed is left alone; a routed one is
   * rejected and gives back its reservation, unless what would be left is stored as less than nothing.
   */
  lemma RoutingFailureAnswered(m: Storage, db: Db, id: Uuid, reason: string)
    requires Inv(m, db)
    ensures var r := Step(m, db, RoutingFailed(id, reason));
      if id !in db.orders || !db.orders[id].status.Routed? then r == Result(db, Ok(Done))
      else
        var o := db.orders[id];
        && o.accountId in db.accounts
        && var a := db.accounts[o.accountId];
           r == if o.side.Buy? && Stored(m, a.reserved - Notional(o.remaining, o.price)) < 0.0 then Result(db, Fail(ConstraintViolation))
                else Result(db.(accounts := db.accounts[o.accountId := GivenBack(m, a, o)],
                                orders := db.orders[id := o.(status := Rejected, rejection := Some("Broker routing failed: " + reason))],
                                audit := db.audit + [AuditEvent(id, OrderRejected, Some(Routed), Rejected)]),
                            Ok(Done))
  {
    hide Inv;
    hide Stored;
    if id in db.orders && db.orders[id].status.Routed? {
      var o := db.orders[id];
      AccountIsKnown(m, db, id);
      RoutingFailureCommitsIff(m, db, id, reason);
      assert db.accounts[o.accountId := db.accounts[o.accountId]] == db.accounts;
      var closed := o.(status := Rejected, rejection := Some("Broker routing failed: " + reason));
      StoreKeepsOrder(m, closed);
      UnreservedIsGivenBack(m, db.accounts[o.accountId], o);
      hide GivenBack;
    }
    hide Unreserve;
    hide StoreAccount;
    hide RemainingNotional;
    hide OrderOk;
    hide StoreOrder;
  }

  /**
   * A submission that fails is undone: after the order is placed and its failure recorded, the account has the
   * cash and the reservation it had before, and the order is there as rejected. Rounded storage asks that the
   * cost is stored as it is.
   */
  lemma FailedSubmissionIsUndone(m: Storage, db: Db, p: Payload, id: Uuid, expiry: int, reason: string)
    requires Inv(m, db) && CleanCommand(m, Place(p, id, expiry)) && p.quantity > 0.0 && p.price > 0.0
    requires p.accountId in db.accounts && NewKeys(db, p, id) && Clean(m, Notional(p.quantity, p.price))
    requires p.side.Buy? ==> p.quantity * p.price <= db.accounts[p.accountId].cash - db.accounts[p.accountId].reserved
    ensures var placed := Step(m, db, Place(p, id, expiry)).db;
      var r, a := Step(m, placed, RoutingFailed(id, reason)), db.accounts[p.accountId];
      && r.outcome == Ok(Done)
      && r.db.orders == db.orders[id := Requested(p, expiry, Rejected, Some("Broker routing failed: " + reason))]
      && r.db.accounts == db.accounts[p.accountId := if p.side.Sell? then a else a.(version := a.version + 2)]
      && r.db.positions == db.positions && r.db.fills == db.fills && r.db.processed == db.processed
  {
    hide Inv;
    hide Step;
    hide NewKeys;
    hide CleanCommand;
    hide Requested;
    hide GivenBack;
    hide Notional;
    hide Stored;
    RoutedRows(m, db, p, id, expiry);
    StepKeepsInv(m, db, Place(p, id, expiry));
    var placed, a := Step(m, db, Place(p, id, expiry)).db, db.accounts[p.accountId];
    RoutingFailureAnswered(m, placed, id, reason);
    AccountRowOk(m, db, p.accountId);
    RequestedFields(p, expiry, reason);
    ReservationIsUndone(m, a, p, Requested(p, expiry, Routed, None));
    hide Reserving;
    assert db.accounts[p.accountId := a] == db.accounts;
    hide AccountChecks;
  }

  lemma RoutedRows(m: Storage, db: Db, p: Payload, id: Uuid, expiry: int)
    requires Inv(m, db) && CleanCommand(m, Place(p, id, expiry)) && p.quantity > 0.0 && p.price > 0.0
    requires p.accountId in db.accounts && NewKeys(db, p, id)
    requires p.side.Buy? ==> p.quantity * p.price <= db.accounts[p.accountId].cash - db.accounts[p.accountId].reserved
    ensures var placed, a := Step(m, db, Place(p, id, expiry)).db, db.accounts[p.accountId];
      && placed.orders == db.orders[id := Requested(p, expiry, Routed, None)]
      && placed.accounts == (if p.side.Sell? then db.accounts else db.accounts[p.accountId := Reserving(m, a, p)])
      && placed.positions == db.positions && placed.fills == db.fills && placed.processed == db.processed
  {
    hide Inv;
    hide NewKeys;
    PlacementAnswered(m, db, p, id, expiry);
    hide Step;
    hide Stored;
    hide Requested;
  }

  lemma RequestedFields(p: Payload, expiry: int, reason: string)
    ensures var o := Requested(p, expiry, Routed, None);
      && o.status == Routed && o.accountId == p.accountId && o.side == p.side
      && o.remaining == p.quantity && o.price == p.price
      && o.(status := Rejected, rejection := Some("Broker routing failed: " + reason)) ==
         Requested(p, expiry, Rejected, Some("Broker routing failed: " + reason))
  {
  }

  lemma ReservationIsUndone(m: Storage, a: Account, p: Payload, o: Order)
    requires Clean(m, a.reserved) && a.reserved >= 0.0 && Clean(m, Notional(p.quantity, p.price))
    requires o.side == p.side && o.remaining == p.quantity && o.price == p.price
    ensures p.side.Buy? ==>
      && GivenBack(m, Reserving(m, a, p), o) == a.(version := a.version + 2)
      && Stored(m, Reserving(m, a, p).reserved - Notional(o.remaining, o.price)) == a.reserved
    ensures p.side.Sell? ==> GivenBack(m, a, o) == a
  {
    CleanSum(m, a.reserved, Notional(p.quantity, p.price));
    hide Notional;
    hide Stored;
  }

  // ---------- the broker ----------

  /** All that an event without effect leaves: the record that it came, and a note in the order's log. */
  function Ignored(db: Db, e: BrokerEvent): Db
    requires e.orderId in db.orders
  {
    var s := db.orders[e.orderId].status;
    db.(processed := db.processed[e.eventId := Processed(e.orderId, e.kind, false)],
        audit := db.audit + [AuditEvent(e.orderId, BrokerEventIgnored, Some(s), s)])
  }

  /** The broker may still fill or cancel the order. */
  predicate AtBroker(o: Order) { o.status == Routed || o.status == PartiallyFilled || o.status == CancelPending }

  /** The fill asks for no more than the order has left, and a full fill for exactly that. */
  predicate RightSize(o: Order, e: BrokerEvent) {
    e.quantity <= o.remaining && (e.kind == FullFill ==> e.quantity == o.remaining)
  }

  /**
   * Which events do nothing, by what they find: an unknown order raises, an answered event is answered again,
   * and a late event or a fill of the wrong size is noted; a fill without a price or without a quantity raises
   * and is not even noted. Any other event is never ignored: it is applied, or it raises and changes nothing.
   */
  lemma EventsWithoutEffect(m: Storage, db: Db, e: BrokerEvent)
    requires Inv(m, db)
    ensures var r := Step(m, db, Handle(e));
      if e.orderId !in db.orders then r == Result(db, Fail(OrderNotFound))
      else if e.eventId in db.processed then r == Result(db, Ok(Applied(false)))
      else
        var o := db.orders[e.orderId];
        if (e.kind == Reject && o.status != Routed) || (e.kind == Cancel && !AtBroker(o)) then
          r == Result(Ignored(db, e), Ok(Applied(false)))
        else if e.kind == Reject || e.kind == Cancel then r.outcome == Ok(Applied(true)) || r == Result(db, Fail(InvalidFill))
        else if !AtBroker(o) then r == Result(Ignored(db, e), Ok(Applied(false)))
        else if e.price.None? || e.quantity <= 0.0 then r == Result(db, Fail(InvalidFill))
        else if !RightSize(o, e) then r == Result(Ignored(db, e), Ok(Applied(false)))
        else r.outcome == Ok(Applied(true)) || (r.outcome.Fail? && r.db == db)
  {
    hide Inv;
    hide Stored;
    hide FillIsFresh;
    if e.orderId in db.orders && e.eventId !in db.processed {
      var o, v := db.orders[e.orderId], ViewOf(db, Handle(e));
      NoteLeavesIgnored(m, db, e);
      if Noted(o, e) || (IsFill(e) && !TakesEffect(o, e)) {
        NoEffectVerdict(m, e, v);
      } else if IsFill(e) {
        FillIsNotIgnored(m, e, v);
        hide FillVerdict;
      } else {
        ClosingCommitsIff(m, db, e);
        hide HandleVerdict;
      }
      hide IgnoreVerdict;
      hide Ignored;
      hide Commit;
    }
  }

  /** The event comes too late, or is a fill of the wrong size. */
  predicate Noted(o: Order, e: BrokerEvent) {
    match e.kind
    case Reject => o.status != Routed
    case Cancel => !AtBroker(o)
    case _ => !AtBroker(o) || (e.price.Some? && e.quantity > 0.0 && !RightSize(o, e))
  }

  lemma NoEffectVerdict(m: Storage, e: BrokerEvent, v: View)
    requires v.order.Some? && !v.duplicate
    ensures Noted(v.order.value, e) ==> HandleVerdict(m, e, v) == IgnoreVerdict(e, v.order.value)
    ensures IsFill(e) && !Noted(v.order.value, e) && (e.price.None? || e.quantity <= 0.0) ==> HandleVerdict(m, e, v) == Refuse(InvalidFill)
  {
    hide FillVerdict;
    hide CloseVerdict;
    hide IgnoreVerdict;
  }

  lemma NoteLeavesIgnored(m: Storage, db: Db, e: BrokerEvent)
    requires Inv(m, db) && e.orderId in db.orders
    ensures Conclude(m, db, IgnoreVerdict(e, db.orders[e.orderId])) == Result(Ignored(db, e), Ok(Applied(false)))
  {
    hide Inv;
    hide Stored;
    OrderOf(m, db, e.orderId);
    StoreKeepsOrder(m, db.orders[e.orderId]);
    hide OrderOk;
    hide StoreOrder;
    assert db.orders[e.orderId := db.orders[e.orderId]] == db.orders;
  }

  lemma FillIsNotIgnored(m: Storage, e: BrokerEvent, v: View)
    requires v.order.Some? && e.price.Some? && e.quantity > 0.0
    ensures FillVerdict(m, e, v).Refuse? || (FillVerdict(m, e, v).Write? && FillVerdict(m, e, v).answer == Applied(true))
  {
    hide Execute;
    hide AccountChecks;
    hide OrderChecks;
    hide PositionChecks;
    hide Stored;
    hide WithFill;
    hide Settle;
    hide Release;
  }

  /** The rows a closed order leaves: its own, its account's, its event's and one entry in its log. */
  function Closed(m: Storage, db: Db, e: BrokerEvent, closed: Order, kind: AuditKind): Db
    requires e.orderId in db.orders && closed.accountId in db.accounts
  {
    var o := db.orders[e.orderId];
    db.(accounts := db.accounts[closed.accountId := GivenBack(m, db.accounts[closed.accountId], o)],
        orders := db.orders[e.orderId := closed],
        processed := db.processed[e.eventId := Processed(e.orderId, e.kind, true)],
        audit := db.audit + [AuditEvent(e.orderId, kind, Some(o.status), closed.status)])
  }

  /** The order closed by the event: rejected for the broker's reason if it gave one, or cancelled with nothing left. */
  function ClosedFor(o: Order, e: BrokerEvent): Order {
    if e.kind == Reject then
      o.(status := Rejected,
         rejection := Some(if e.reason == None || e.reason == Some("") then "Rejected by broker" else e.reason.value))
    else o.(status := Cancelled, cancelled := o.remaining, remaining := 0.0)
  }

  /**
   * A new rejection of a routed order, or a new cancellation of an open one, closes the order and gives back
   * what a buy still had reserved; it raises, and changes nothing, if less than that is reserved.
   */
  lemma ClosingAnswered(m: Storage, db: Db, e: BrokerEvent)
    requires Inv(m, db) && e.orderId in db.orders && e.eventId !in db.processed
    requires var o := db.orders[e.orderId]; (e.kind == Reject && o.status == Routed) || (e.kind == Cancel && AtBroker(o))
    ensures var o := db.orders[e.orderId];
      && o.accountId in db.accounts
      && Step(m, db, Handle(e)) ==
           if o.side == Buy && Notional(o.remaining, o.price) > db.accounts[o.accountId].reserved then Result(db, Fail(InvalidFill))
           else Result(Closed(m, db, e, ClosedFor(o, e), if e.kind == Reject then OrderRejected else OrderCancelled), Ok(Applied(true)))
  {
    hide Inv;
    hide Stored;
    hide CloseVerdict;
    hide FillIsFresh;
    var o, v := db.orders[e.orderId], ViewOf(db, Handle(e));
    var kind := if e.kind == Reject then OrderRejected else OrderCancelled;
    AccountIsKnown(m, db, e.orderId);
    HoldsWhatItGivesBack(m, o);
    ClosingCommitsIff(m, db, e);
    assert ClosedBy(o, e) == ClosedFor(o, e);
    ClosedRow(m, o, ClosedBy(o, e));
    CloseWritesOrRaises(m, e, v, kind);
    hide HandleVerdict;
    hide OrderOk;
    hide StoreOrder;
    hide Notional;
    hide AccountChecks;
    hide Held;
    hide ClosedFor;
    hide Closed;
    hide Commit;
    if Step(m, db, Handle(e)).outcome.Ok? {
      CloseWrites(m, e, v, ClosedBy(o, e), kind);
      ClosedRows(m, db, e, ClosedBy(o, e), kind);
    }
  }

  lemma ClosedRows(m: Storage, db: Db, e: BrokerEvent, closed: Order, kind: AuditKind)
    requires e.orderId in db.orders && closed.accountId in db.accounts && closed.accountId == db.orders[e.orderId].accountId
    requires HoldsCash(db.orders[e.orderId]) == db.orders[e.orderId].side.Buy? && StoreOrder(m, closed) == closed
    requires Clean(m, db.accounts[closed.accountId].cash)
    ensures var o, a := db.orders[e.orderId], db.accounts[closed.accountId];
      Closed(m, db, e, closed, kind) ==
        Commit(m, db, Change(e.orderId, closed, if HoldsCash(o) then Some(Unreserve(a, RemainingNotional(o))) else None, None, None,
                             AppliedRow(e), [Link(e.orderId, kind, o.status, closed.status)], []))
  {
    UnreservedIsGivenBack(m, db.accounts[closed.accountId], db.orders[e.orderId]);
    assert db.accounts[closed.accountId := db.accounts[closed.accountId]] == db.accounts;
    hide Stored;
    hide StoreOrder;
    hide StoreAccount;
    hide GivenBack;
    hide Notional;
    hide Unreserve;
  }

  // ---------- fills ----------

  /** A fill that was applied passed the guard and wrote what its verdict says. */
  lemma AppliedFill(m: Storage, db: Db, e: BrokerEvent)
    requires (e.kind == FullFill || e.kind == PartialFill) && Step(m, db, Handle(e)).outcome == Ok(Applied(true))
    ensures e.orderId in db.orders && e.eventId !in db.processed && e.price.Some? && 0.0 < e.quantity
    ensures AtBroker(db.orders[e.orderId]) && RightSize(db.orders[e.orderId], e)
    ensures var o, v := db.orders[e.orderId], ViewOf(db, Handle(e));
      && v.order == Some(o) && Working(o.status) && v.account == Lookup(db.accounts, o.accountId)
      && v.position == Lookup(db.positions, o.Key()) && v.mark == MarkOf(db.quotes, o.symbol)
      && v.fillFresh == FillIsFresh(db.fills, e.eventId, ExecutionKey(e))
      && FillVerdict(m, e, v).Write?
      && Step(m, db, Handle(e)).db == Commit(m, db, FillVerdict(m, e, v).change)
  {
    hide FillVerdict;
    hide CloseVerdict;
    hide FillIsFresh;
    hide Commit;
    if e.price.Some? && e.quantity > 0.0 && e.orderId in db.orders {
      FillIsNotIgnored(m, e, ViewOf(db, Handle(e)));
    }
  }

  /** The broker's name for the execution; an execution without one goes by its event. */
  function ExecutionOf(e: BrokerEvent): string {
    match e.executionId
    case None => e.eventId
    case Some(x) => if |x| == 0 then e.eventId else x
  }

  /**
   * An applied fill appends one row, under the broker's own execution id when it gave one, records its event,
   * and writes nothing but its order, account and position besides.
   */
  lemma FillRecorded(m: Storage, db: Db, e: BrokerEvent)
    requires (e.kind == FullFill || e.kind == PartialFill) && Step(m, db, Handle(e)).outcome == Ok(Applied(true))
    ensures e.orderId in db.orders && e.eventId !in db.processed && e.price.Some? && 0.0 < e.quantity
    ensures AtBroker(db.orders[e.orderId]) && RightSize(db.orders[e.orderId], e)
    ensures var o, after := db.orders[e.orderId], Step(m, db, Handle(e)).db;
      && after.fills == db.fills + [Fill(e.orderId, e.eventId, ExecutionOf(e), Stored(m, e.quantity), Stored(m, e.price.value))]
      && (forall i :: 0 <= i < |db.fills| ==> db.fills[i].eventId != e.eventId && db.fills[i].executionId != ExecutionOf(e))
      && after.processed == db.processed[e.eventId := Processed(e.orderId, e.kind, true)]
      && after.quotes == db.quotes && after.outbox == db.outbox
      && after.orders.Keys == db.orders.Keys && after.orders[e.orderId].accountId == o.accountId
      && (forall id :: id in db.orders && id != e.orderId ==> after.orders[id] == db.orders[id])
      && after.accounts.Keys == db.accounts.Keys
      && (forall a :: a in db.accounts && a != o.accountId ==> after.accounts[a] == db.accounts[a])
      && after.positions.Keys == db.positions.Keys + {o.Key()}
      && (forall k :: k in db.positions && k != o.Key() ==> after.positions[k] == db.positions[k])
  {
    hide FillVerdict;
    hide Stored;
    hide Step;
    hide Execute;
    hide FillAccount;
    hide FillOutcome;
    AppliedFill(m, db, e);
    var o, v := db.orders[e.orderId], ViewOf(db, Handle(e));
    FillWrites(m, e, v);
    FillKeepsIdentity(o, e.quantity, e.price.value);
    hide ViewOf;
    hide AccountChecks;
    hide OrderChecks;
    hide Settle;
  }

  lemma FillKeepsIdentity(o: Order, q: real, p: real)
    requires o.filled + q != 0.0
    ensures var f := FillOutcome(o, q, p);
      && f.Key() == o.Key() && f.accountId == o.accountId
      && f == o.(filled := f.filled, cancelled := f.cancelled, remaining := f.remaining, average := f.average, status := f.status)
  {
  }

  /** The value of what was filled before, from the average price. */
  function ValueBefore(o: Order): real {
    match o.average
    case None => 0.0
    case Some(average) => Notional(o.filled, average)
  }

  /** The order after q units filled at p, and its log. */
  predicate FillShows(m: Storage, id: Uuid, o: Order, o': Order, q: real, p: real, log: seq<AuditEvent>) {
    && o' == o.(filled := o'.filled, cancelled := o'.cancelled, remaining := o'.remaining, average := o'.average, status := o'.status)
    && o'.filled == Stored(m, o.filled + q)
    && o.filled + q > 0.0 && o'.average == Some(Stored(m, (ValueBefore(o) + Notional(q, p)) / (o.filled + q)))
    && if q == o.remaining then
         && o'.status == Filled && o'.remaining == 0.0 && o'.cancelled == o.cancelled
         && log == [AuditEvent(id, FullFillReceived, Some(o.status), Filled)]
       else if o.timeInForce == Ioc then
         && o'.status == Cancelled && o'.remaining == 0.0 && o'.cancelled == Stored(m, o.remaining - q)
         && log == [AuditEvent(id, PartialFillReceived, Some(o.status), o.status),
                    AuditEvent(id, OrderCancelled, Some(o.status), Cancelled)]
       else
         && o'.status == (if o.status == CancelPending then CancelPending else PartiallyFilled)
         && o'.remaining == Stored(m, o.remaining - q) && o'.cancelled == o.cancelled
         && log == [AuditEvent(id, PartialFillReceived, Some(o.status), o'.status)]
  }

  /** The account after q units of the order filled at p: an IOC order gives back the rest of its reservation at once. */
  function Paid(m: Storage, a: Account, o: Order, q: real, p: real): Account {
    match o.side
    case Sell => a.(cash := Stored(m, a.cash + Notional(q, p)), version := a.version + 1)
    case Buy =>
      var all := o.timeInForce == Ioc && q != o.remaining;
      a.(cash := Stored(m, a.cash - Notional(q, p)),
         reserved := Stored(m, a.reserved - Notional(if all then o.remaining else q, o.price)),
         version := a.version + if all then 2 else 1)
  }

  /** What an applied fill does to the order, its log and the account that pays or is paid. */
  lemma FillSettled(m: Storage, db: Db, e: BrokerEvent)
    requires Inv(m, db) && (e.kind == FullFill || e.kind == PartialFill) && Step(m, db, Handle(e)).outcome == Ok(Applied(true))
    ensures e.orderId in db.orders && e.price.Some?
    ensures var o, after := db.orders[e.orderId], Step(m, db, Handle(e)).db;
      && e.orderId in after.orders && o.accountId in db.accounts && o.accountId in after.accounts
      && db.audit <= after.audit
      && FillShows(m, e.orderId, o, after.orders[e.orderId], e.quantity, e.price.value, after.audit[|db.audit|..])
      && after.accounts[o.accountId] == Paid(m, db.accounts[o.accountId], o, e.quantity, e.price.value)
  {
    hide Inv;
    hide FillVerdict;
    hide Stored;
    hide Step;
    hide Execute;
    hide FillAccount;
    hide FillOutcome;
    AppliedFill(m, db, e);
    var o, q, p, v := db.orders[e.orderId], e.quantity, e.price.value, ViewOf(db, Handle(e));
    FillWrites(m, e, v);
    AccountIsKnown(m, db, e.orderId);
    FillKeepsIdentity(o, q, p);
    FilledShows(m, e.orderId, o, q, p);
    FilledPays(m, db.accounts[o.accountId], o, q, p);
    hide FillShows;
    hide StoreOrder;
    hide StoreAccount;
    hide Paid;
    hide FillAudit;
    hide ViewOf;
    hide AccountChecks;
    hide OrderChecks;
    hide OrderOk;
    hide Settle;
  }

  lemma FilledShows(m: Storage, id: Uuid, o: Order, q: real, p: real)
    requires OrderOk(m, o) && AtBroker(o) && 0.0 < q <= o.remaining
    ensures o.filled + q != 0.0
    ensures FillShows(m, id, o, StoreOrder(m, FillOutcome(o, q, p)), q, p, FillAudit(id, o, FillOutcome(o, q, p)))
  {
    hide Stored;
    CleanZero(m);
    assert ValueBefore(o) == ValueFilled(o);
    hide Notional;
    hide ValueFilled;
    hide ValueBefore;
  }

  lemma FilledPays(m: Storage, a: Account, o: Order, q: real, p: real)
    requires OrderOk(m, o) && AtBroker(o) && 0.0 < q <= o.remaining && o.filled + q != 0.0 && FillAccount(a, o, q, p).Some?
    requires Clean(m, a.cash) && Clean(m, a.reserved)
    ensures StoreAccount(m, FillAccount(a, o, q, p).value) == Paid(m, a, o, q, p)
  {
    hide Stored;
    hide ValueFilled;
    var o1 := WithFill(o, q, p);
    assert o1.side == o.side && o1.remaining == o.remaining - q && o1.price == o.price;
    hide WithFill;
    assert RemainingNotional(o1) == Notional(o.remaining, o.price) - Notional(q, o.price);
    hide Notional;
  }

  /** The book of the account in the order's symbol; nothing, when it has none. */
  function BookBefore(db: Db, k: PositionKey): Book {
    if k in db.positions then Book(db.positions[k].net, db.positions[k].average, db.positions[k].realized) else Book(0.0, 0.0, 0.0)
  }

  /** The position row of a book, marked. */
  function Marked(m: Storage, b: Book, mark: real): Position {
    Position(Stored(m, b.net), Stored(m, b.average), Stored(m, b.realized),
             Stored(m, Profit(b, mark)), Some(Stored(m, mark)))
  }

  /** What the open quantity would make at the mark. */
  function Profit(b: Book, mark: real): real { (mark - b.average) * b.net }

  lemma ExecutedIsMarked(m: Storage, pos: Option<Position>, mark: Option<real>, t: Trade)
    requires t.quantity > 0.0
    ensures StorePosition(m, Execute(pos, mark, t)) ==
            Marked(m, AfterFill(BookOf(pos), t), if mark.Some? then mark.value else t.price)
  {
    hide Stored;
    hide AfterFill;
    var b, shown := AfterFill(BookOf(pos), t), if mark.Some? then mark.value else t.price;
    assert Unrealized(b.net, b.average, Some(shown)) == Profit(b, shown);
    hide Unrealized;
    hide Profit;
  }

  /**
   * What an applied fill does to the position: the book moves by the fill, the mark is the symbol's stored
   * price, or the fill's own price while the symbol has none, and the unrealized profit is what the new book
   * makes at that mark.
   */
  lemma FillMovesPosition(m: Storage, db: Db, e: BrokerEvent)
    requires (e.kind == FullFill || e.kind == PartialFill) && Step(m, db, Handle(e)).outcome == Ok(Applied(true))
    ensures e.orderId in db.orders && e.price.Some? && 0.0 < e.quantity
    ensures var o, p := db.orders[e.orderId], e.price.value; var k, after := o.Key(), Step(m, db, Handle(e)).db;
      var b := AfterFill(BookBefore(db, k), Trade(o.side, e.quantity, p));
      var mark := if o.symbol in db.quotes then db.quotes[o.symbol].price else p;
      && k in after.positions
      && after.positions[k] == Marked(m, b, mark)
  {
    hide FillVerdict;
    hide Stored;
    hide Step;
    hide AfterFill;
    hide FillAccount;
    hide FillOutcome;
    AppliedFill(m, db, e);
    var o, v := db.orders[e.orderId], ViewOf(db, Handle(e));
    FillWrites(m, e, v);
    FillKeepsIdentity(o, e.quantity, e.price.value);
    assert BookOf(Lookup(db.positions, o.Key())) == BookBefore(db, o.Key());
    ExecutedIsMarked(m, v.position, v.mark, Trade(o.side, e.quantity, e.price.value));
    hide Execute;
    hide Marked;
    hide StorePosition;
    hide ViewOf;
    hide AccountChecks;
    hide OrderChecks;
    hide Settle;
  }

  // ---------- market data ----------

  /**
   * A tick older than the symbol's price does nothing; a price the table does not take is refused. Any other
   * tick is stored, and moves the mark and the unrealized profit of the symbol's positions, and nothing else.
   */
  lemma TickAnswered(m: Storage, db: Db, symbol: string, price: real, at: int)
    ensures var r := Step(m, db, Tick(symbol, price, at));
      if symbol in db.quotes && at < db.quotes[symbol].observedAt then r == Result(db, Ok(Done))
      else if Stored(m, price) <= 0.0 then r == Result(db, Fail(ConstraintViolation))
      else
        && r.outcome == Ok(Done)
        && r.db == db.(quotes := db.quotes[symbol := Quote(Stored(m, price), at)], positions := r.db.positions)
        && r.db.positions.Keys == db.positions.Keys
        && forall k :: k in db.positions ==>
             var p := db.positions[k];
             r.db.positions[k] == if k.symbol != symbol then p
                                  else p.(mark := Some(Stored(m, price)), unrealized := Stored(m, Profit(BookBefore(db, k), price)))
  {
    hide Stored;
    forall k | k in db.positions
      ensures Unrealized(db.positions[k].net, db.positions[k].average, Some(price)) == Profit(BookBefore(db, k), price)
    {
    }
    hide Profit;
    hide Unrealized;
    hide BookBefore;
  }

  // ---------- one execution is applied once ----------

  lemma StepKeepsFills(m: Storage, db: Db, c: Command)
    ensures db.fills <= Step(m, db, c).db.fills
  {
    hide Judge;
    hide Stored;
  }

  /** No command ever removes or rewrites a fill row. */
  lemma {:induction false} FillsOnlyGrow(m: Storage, db: Db, cs: seq<Command>)
    ensures db.fills <= Run(m, db, cs).fills
  {
    hide Step;
    if cs != [] {
      FillsOnlyGrow(m, db, cs[..|cs| - 1]);
      StepKeepsFills(m, Run(m, db, cs[..|cs| - 1]), cs[|cs| - 1]);
    }
  }

  /** A fill whose execution is known already breaks the unique execution id, once it is past the guard. */
  lemma KnownExecutionIsRefused(m: Storage, db: Db, f: BrokerEvent, i: nat)
    requires (f.kind == FullFill || f.kind == PartialFill) && i < |db.fills| && db.fills[i].executionId == ExecutionOf(f)
    ensures Step(m, db, Handle(f)).outcome != Ok(Applied(true))
    ensures f.orderId in db.orders && f.eventId !in db.processed && f.price.Some? && f.quantity > 0.0
            && AtBroker(db.orders[f.orderId]) && RightSize(db.orders[f.orderId], f) ==>
              Step(m, db, Handle(f)) == Result(db, Fail(ConstraintViolation))
  {
    hide Stored;
    hide Execute;
    hide WithFill;
    hide Settle;
    hide CloseVerdict;
    if Step(m, db, Handle(f)).outcome == Ok(Applied(true)) {
      FillRecorded(m, db, f);
      assert false;
    }
  }

  /**
   * The broker's execution happens once: after a fill under an execution id was applied, and whatever happens
   * then, no other fill event under that id is ever applied, for any order; past the guard it is refused by
   * the unique execution id and changes nothing.
   */
  lemma ExecutionHappensOnce(m: Storage, db: Db, e: BrokerEvent, cs: seq<Command>, f: BrokerEvent, x: string)
    requires (e.kind == FullFill || e.kind == PartialFill) && (f.kind == FullFill || f.kind == PartialFill)
    requires x != "" && e.executionId == Some(x) && f.executionId == Some(x)
    requires Step(m, db, Handle(e)).outcome == Ok(Applied(true))
    ensures var later := Run(m, Step(m, db, Handle(e)).db, cs);
      && Step(m, later, Handle(f)).outcome != Ok(Applied(true))
      && (f.orderId in later.orders && f.eventId !in later.processed && f.price.Some? && f.quantity > 0.0
          && AtBroker(later.orders[f.orderId]) && RightSize(later.orders[f.orderId], f) ==>
            Step(m, later, Handle(f)) == Result(later, Fail(ConstraintViolation)))
  {
    hide Step;
    hide Run;
    hide Stored;
    FillRecorded(m, db, e);
    var after := Step(m, db, Handle(e)).db;
    FillsOnlyGrow(m, after, cs);
    assert Run(m, after, cs).fills[|db.fills|] == after.fills[|db.fills|];
    KnownExecutionIsRefused(m, Run(m, after, cs), f, |db.fills|);
  }
}
