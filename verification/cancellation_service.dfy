/** Requests to cancel an order, from clients and from the expiry of DAY orders. */
module CancellationService {
  import opened Types
  import opened Numeric
  import opened Tables
  import opened OrderRules
  import opened Transactions
  import opened Database
  import opened BrokerAdapter
  import OrderLifecycle

  /** The transaction of a cancellation request, and whether the broker is to be told once it has committed. */
  method MarkPending(database: Database, id: Uuid, reason: string, ghost calls: seq<Outbound>)
    returns (outcome: Outcome, notify: bool)
    requires database.Valid()
    modifies database
    ensures database.Valid()
    ensures Result(database.Tables(calls + if notify then [CancelAtBroker(id, reason)] else []), outcome) ==
      Step(database.storage, old(database.Tables(calls)), RequestCancel(id, reason))
  {
    hide Commit;
    hide OrdersOk;
    hide RowOk;
    hide StoreAccount;
    hide AccountChecks;
    hide StorePosition;
    hide PositionChecks;
    hide OrderChecks;
    hide StoreOrder;
    assert calls + [] == calls;
    ghost var v := ViewOf(database.Tables(calls), RequestCancel(id, reason));
    var session := new Session(database);
    var order := session.LockOrder(id);
    if order == null {
      return Fail(OrderNotFound), false;
    }
    if order.status.CancelPending? {
      return Ok(OrderIs(id)), false;
    }
    if !Cancellable(order.status) {
      return Fail(InvalidCancellation), false;
    }
    OrderIsOk(database, id);
    ghost var verdict := RequestCancelVerdict(id, reason, v);
    CallsFollowRows(database.storage, database.Tables(calls), verdict.change);
    PendingAccepted(database.storage, order.Value());
    var allowed := OrderLifecycle.Transition(session, order, CancelPending, CancelRequested);
    assert allowed;
    outcome := session.Finish(None, OrderIs(id), verdict, calls);
    notify := true;
  }

  /** Ask for a cancellation: the order goes pending in one transaction, then the broker is told. */
  method RequestCancellation(database: Database, broker: Broker, id: Uuid, reason: string) returns (outcome: Outcome)
    requires database.Valid()
    modifies database, broker
    ensures database.Valid()
    ensures Result(database.Tables(broker.calls), outcome) ==
      Step(database.storage, old(database.Tables(broker.calls)), RequestCancel(id, reason))
  {
    hide Step;
    hide OrdersOk;
    var notify;
    outcome, notify := MarkPending(database, id, reason, broker.calls);
    assert broker.calls + [] == broker.calls;
    if notify {
      broker.CancelOrder(id, reason);
    }
  }

  lemma PendingAccepted(m: Storage, o: Order)
    requires RowOk(m, o)
    ensures OrderChecks(StoreOrder(m, o.(status := CancelPending)))
  {
    hide Stored;
  }
}
