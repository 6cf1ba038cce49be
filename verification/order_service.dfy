/** Creating orders and handing them to the broker. */
module OrderService {
  import opened Types
  import opened Numeric
  import opened Tables
  import opened OrderRules
  import opened Transactions
  import opened Database
  import opened BrokerAdapter
  import OrderLifecycle

  /** What the session of a new order has seen. */
  ghost predicate SeesAccount(session: Session, account: AccountRow, p: Payload, id: Uuid, v: View)
    reads session, session.database, account
  {
    && session.order == null && session.account == account && session.position == null
    && session.fill.None? && session.processed.None? && session.events == []
    && account.id == p.accountId && account.id in session.database.accounts
    && account.Value() == session.database.accounts[account.id]
    && v.account == Some(account.Value()) && v.sameKey.None? && !v.clientIdTaken
    && v.orderIdTaken == (id in session.database.orders)
  }

  /** Reject an order the account cannot pay for; otherwise reserve the cash of a buy and route it. */
  method ValidateAndRoute(session: Session, order: OrderRow, account: AccountRow) returns (route: bool)
    requires order.status.New?
    modifies session`events, order`status, order`rejection, account
    ensures var o, a := old(order.Value()), old(account.Value());
      && route == (RequiredBuyingPower(o.side, o.quantity, o.price) <= a.Available())
      && account.Value() == (if route && o.side.Buy? then Reserve(a, o) else a)
      && order.Value() == (if route then o.(status := Routed)
                           else o.(status := Rejected, rejection := Some("Insufficient buying power")))
      && session.events == old(session.events) +
           if route then [Link(order.id, OrderValidated, New, Validated), Link(order.id, OrderRouted, Validated, Routed)]
           else [Link(order.id, ValidationFailed, New, Rejected)]
  {
    var required := RequiredBuyingPower(order.terms.side, order.terms.quantity, order.terms.price);
    if required > account.cash - account.reserved {
      order.rejection := Some("Insufficient buying power");
      var allowed := OrderLifecycle.Transition(session, order, Rejected, ValidationFailed);
      assert allowed;
      return false;
    }
    var valid := OrderLifecycle.Transition(session, order, Validated, OrderValidated);
    assert valid;
    if order.terms.side.Buy? {
      account.reserved := account.reserved + required;
      account.version := account.version + 1;
    }
    var routed := OrderLifecycle.Transition(session, order, Routed, OrderRouted);
    assert routed;
    return true;
  }

  /** Insert the order, then validate and route it. */
  method OpenOrder(session: Session, account: AccountRow, p: Payload, id: Uuid, expiry: int, ghost v: View)
    returns (order: OrderRow, route: bool, error: Option<Failure>)
    requires SeesAccount(session, account, p, id, v)
    modifies session`order, session`events, account
    ensures session.order == order && fresh(order) && order.id == id && order.terms == NewOrder(p, expiry)
    ensures error.None? ==> id !in session.database.orders
    ensures session.Concludes(error, OrderIs(id), PlaceVerdict(session.database.storage, p, id, expiry, v))
    ensures match PlaceVerdict(session.database.storage, p, id, expiry, v)
      case Write(c, _) => c.outbox == if route then [Submit(ToBroker(id, order.Value()))] else []
      case _ => true
  {
    hide StoreOrder;
    hide StoreAccount;
    hide AccountChecks;
    hide OrderChecks;
    hide RequiredBuyingPower;
    StatusIsNotChecked(session.database.storage, NewOrder(p, expiry));
    order := new OrderRow(id, NewOrder(p, expiry));
    session.order := order;
    if id in session.database.orders || !session.Accepted() {
      return order, false, Some(ConstraintViolation);
    }
    OrderLifecycle.AppendEvent(session, order, OrderCreated, None, New);
    route := ValidateAndRoute(session, order, account);
    error := None;
  }

  lemma StatusIsNotChecked(m: Storage, o: Order)
    ensures forall s, r :: OrderChecks(StoreOrder(m, o.(status := s, rejection := r))) == OrderChecks(StoreOrder(m, o))
  {
    hide Stored;
  }

  /** The order stored under an idempotency key of the account. */
  method FindByIdempotencyKey(orders: map<Uuid, Order>, accountId: Uuid, key: string) returns (found: Option<Existing>)
    requires UniqueKeys(orders)
    ensures found == FindByKey(orders, accountId, key)
  {
    if exists id :: id in orders && orders[id].accountId == accountId && orders[id].idempotencyKey == key {
      var id :| id in orders && orders[id].accountId == accountId && orders[id].idempotencyKey == key;
      found := Some(Existing(id, orders[id]));
    } else {
      found := None;
    }
  }

  /** Reject a routed order whose submission failed, and give its reservation back. */
  method FailLocked(session: Session, order: OrderRow, reason: string, ghost v: View) returns (error: Option<Failure>)
    requires session.order == order && session.account == null && session.position == null
    requires session.fill.None? && session.processed.None? && session.events == []
    requires RowOk(session.database.storage, order.Value()) && order.status.Routed?
    requires v.order == Some(order.Value()) && v.account == Lookup(session.database.accounts, order.terms.accountId)
    modifies session`account, session`events, order
    ensures session.order == order
    ensures session.Concludes(error, Done, RoutingFailedVerdict(session.database.storage, order.id, reason, v))
  {
    hide StoreOrder;
    hide StoreAccount;
    hide AccountChecks;
    hide OrderChecks;
    StatusIsNotChecked(session.database.storage, order.Value());
    var account := session.LockAccount(order.terms.accountId);
    if account == null {
      return Some(AccountNotFound);
    }
    if order.terms.side.Buy? {
      account.reserved := account.reserved - Notional(order.remaining, order.terms.price);
      account.version := account.version + 1;
    }
    order.rejection := Some("Broker routing failed: " + reason);
    var allowed := OrderLifecycle.Transition(session, order, Rejected, OrderRejected);
    assert allowed;
    return None;
  }

  method MarkRoutingFailure(database: Database, id: Uuid, reason: string, ghost calls: seq<Outbound>) returns (outcome: Outcome)
    requires database.Valid()
    modifies database
    ensures database.Valid()
    ensures Result(database.Tables(calls), outcome) == Step(database.storage, old(database.Tables(calls)), RoutingFailed(id, reason))
  {
    hide Commit;
    hide UniqueKeys;
    ghost var v := ViewOf(database.Tables(calls), RoutingFailed(id, reason));
    var session := new Session(database);
    var order := session.LockOrder(id);
    if order == null || !order.status.Routed? {
      return Ok(Done);
    }
    OrderIsOk(database, id);
    hide RowOk;
    hide AccountChecks;
    hide StoreAccount;
    var error := FailLocked(session, order, reason, v);
    outcome := session.Finish(error, Done, RoutingFailedVerdict(database.storage, id, reason, v), calls);
  }

  /** The first transaction of a submission, and the order to hand to the broker once it has committed. */
  method PlaceOrder(database: Database, p: Payload, id: Uuid, expiry: int, ghost calls: seq<Outbound>)
    returns (outcome: Outcome, submission: Option<BrokerOrder>)
    requires database.Valid()
    modifies database
    ensures database.Valid()
    ensures var sent := if submission.Some? then [Submit(submission.value)] else [];
      Result(database.Tables(calls + sent), outcome) == Step(database.storage, old(database.Tables(calls)), Place(p, id, expiry))
  {
    hide UniqueKeys;
    hide RowOk;
    hide FindByKey;
    hide MatchesRequest;
    hide Commit;
    ghost var v := ViewOf(database.Tables(calls), Place(p, id, expiry));
    assert calls + [] == calls;
    var session := new Session(database);
    var account := session.LockAccount(p.accountId);
    if account == null {
      return Fail(AccountNotFound), None;
    }
    var existing := FindByIdempotencyKey(database.orders, p.accountId, p.idempotencyKey);
    if existing.Some? {
      if !MatchesRequest(existing.value.order, p) {
        return Fail(DuplicateOrder), None;
      }
      return Ok(OrderIs(existing.value.orderId)), None;
    }
    if ClientIdTaken(database.orders, p.accountId, p.clientOrderId) {
      return Fail(DuplicateOrder), None;
    }
    hide PlaceVerdict;
    KeysUnused(database.orders, p);
    var order, route, error := OpenOrder(session, account, p, id, expiry, v);
    ghost var verdict := PlaceVerdict(database.storage, p, id, expiry, v);
    if verdict.Write? {
      CallsFollowRows(database.storage, database.Tables(calls), verdict.change);
    }
    outcome := session.Finish(error, OrderIs(id), PlaceVerdict(database.storage, p, id, expiry, v), calls);
    submission := if outcome.Ok? && route then Some(ToBroker(id, order.Value())) else None;
  }

  lemma KeysUnused(orders: map<Uuid, Order>, p: Payload)
    requires FindByKey(orders, p.accountId, p.idempotencyKey).None? && !ClientIdTaken(orders, p.accountId, p.clientOrderId)
    ensures forall o: Order ::
      o.accountId == p.accountId && o.idempotencyKey == p.idempotencyKey && o.clientOrderId == p.clientOrderId ==>
        KeysAreNew(orders, o)
  {
  }

  /**
   * Create an order and submit it. A submission that raises is followed by the routing-failure
   * transaction; the two transactions are then two steps, and the caller learns the broker is down.
   */
  method CreateOrder(database: Database, broker: Broker, p: Payload, id: Uuid, expiry: int, outage: Option<string>)
    returns (outcome: Outcome)
    requires database.Valid()
    modifies database, broker
    ensures database.Valid()
    ensures var start, end := old(database.Tables(broker.calls)), database.Tables(broker.calls);
      var placed := Step(database.storage, start, Place(p, id, expiry));
      var failed := Step(database.storage, placed.db, RoutingFailed(id, if outage.Some? then outage.value else ""));
      if placed.db.outbox != start.outbox && outage.Some? then
        end == failed.db && outcome == if failed.outcome.Fail? then failed.outcome else Fail(BrokerUnavailable)
      else Result(end, outcome) == placed
  {
    hide Step;
    hide UniqueKeys;
    hide OrdersOk;
    ghost var start := database.Tables(broker.calls);
    var submission;
    outcome, submission := PlaceOrder(database, p, id, expiry, broker.calls);
    assert start.outbox == broker.calls && broker.calls + [] == broker.calls;
    if submission.Some? {
      var raised := broker.SubmitOrder(submission.value, outage);
      if raised.Some? {
        var marked := MarkRoutingFailure(database, id, raised.value, broker.calls);
        outcome := if marked.Fail? then marked else Fail(BrokerUnavailable);
      }
    }
  }
}
