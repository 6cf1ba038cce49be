/** Applying broker events to rows, in one transaction each. */
module ExecutionService {
  import opened Types
  import opened Numeric
  import opened Tables
  import opened OrderRules
  import opened Transactions
  import opened Database
  import OrderLifecycle
  import PositionRules
  import PositionService

  method ReleaseRemainingReservation(account: AccountRow, order: OrderRow) returns (error: Option<Failure>)
    modifies account
    ensures var released := Release(old(account.Value()), order.Value());
      if released.None? then error == Some(InvalidFill) else error.None? && account.Value() == released.value
  {
    if !order.terms.side.Buy? || order.remaining <= 0.0 {
      return None;
    }
    var amount := Notional(order.remaining, order.terms.price);
    if amount > account.reserved {
      return Some(InvalidFill);
    }
    account.reserved := account.reserved - amount;
    account.version := account.version + 1;
    return None;
  }

  /** The account the session holds, or the one it would load. */
  function AccountSeen(session: Session, id: Uuid): Option<Account>
    reads session, session.database, session.account
  {
    if session.account != null then Some(session.account.Value()) else Lookup(session.database.accounts, id)
  }

  method CancelRemaining(session: Session, order: OrderRow) returns (error: Option<Failure>)
    requires Working(order.status)
    requires session.account != null ==> session.account.id == order.terms.accountId
    modifies session`account, session`events, session.account, order
    ensures var seen := old(AccountSeen(session, order.terms.accountId));
      if seen.None? then error == Some(AccountNotFound)
      else
        var released := Release(seen.value, old(order.Value()));
        if released.None? then error == Some(InvalidFill)
        else
          && error.None?
          && session.account != null && session.account.id == order.terms.accountId
          && (if old(session.account) == null then fresh(session.account) else session.account == old(session.account))
          && session.account.Value() == released.value
          && order.Value() == CancelledOrder(old(order.Value()))
          && session.events == old(session.events) + [Link(order.id, OrderCancelled, old(order.status), Cancelled)]
  {
    var account := session.LockAccount(order.terms.accountId);
    if account == null {
      return Some(AccountNotFound);
    }
    error := ReleaseRemainingReservation(account, order);
    if error.Some? {
      return;
    }
    order.cancelled := order.cancelled + order.remaining;
    order.remaining := 0.0;
    var allowed := OrderLifecycle.Transition(session, order, Cancelled, OrderCancelled);
    assert allowed;
  }

  /** What the transaction has read for an event when only the order is loaded. */
  ghost predicate Sees(session: Session, order: OrderRow, e: BrokerEvent, v: View)
    reads session, session.database, order
  {
    && session.order == order && order.id == e.orderId
    && session.account == null && session.position == null && session.fill.None? && session.events == []
    && RowOk(session.database.storage, order.Value())
    && v.order == Some(order.Value())
    && v.account == Lookup(session.database.accounts, order.terms.accountId)
    && v.position == Lookup(session.database.positions, order.Value().Key())
    && v.mark == MarkOf(session.database.quotes, order.terms.symbol)
    && v.fillFresh == FillIsFresh(session.database.fills, e.eventId, ExecutionKey(e))
  }

  /** The session stands where the verdict says, except for the record of the event itself. */
  ghost predicate Stands(session: Session, error: Option<Failure>, v: Verdict)
    reads session, session.database, session.order, session.account, session.position
  {
    match v
    case Refuse(f) => error == Some(f) || (error.None? && !session.Accepted() && f == ConstraintViolation)
    case Keep(_) => false
    case Write(c, _) =>
      error.None? && session.order != null && session.Accepted() && session.Pending().(processed := None) == c.(processed := None)
  }

  /** Move the fill from what remains to what is filled, and average its price in. */
  method TakeFill(order: OrderRow, quantity: real, price: real)
    requires order.filled + quantity != 0.0
    modifies order`average, order`filled, order`remaining
    ensures order.Value() == WithFill(old(order.Value()), quantity, price)
  {
    var filled := order.filled + quantity;
    var previous := order.filled * (if order.average.Some? then order.average.value else 0.0);
    order.average := Some((previous + Notional(quantity, price)) / filled);
    order.filled := filled;
    order.remaining := order.remaining - quantity;
  }

  /** Pay for a buy out of the reservation, or receive the proceeds of a sale. */
  method SettleCash(account: AccountRow, order: OrderRow, quantity: real, price: real) returns (error: Option<Failure>)
    modifies account
    ensures var paid := Settle(old(account.Value()), order.Value(), quantity, price);
      if paid.None? then error == Some(InvalidFill) else error.None? && account.Value() == paid.value
  {
    var notional := Notional(quantity, price);
    if order.terms.side.Buy? {
      var release := Notional(quantity, order.terms.price);
      if release > account.reserved {
        return Some(InvalidFill);
      }
      if notional > account.cash {
        return Some(InvalidFill);
      }
      account.reserved := account.reserved - release;
      account.cash := account.cash - notional;
    } else {
      account.cash := account.cash + notional;
    }
    account.version := account.version + 1;
    return None;
  }

  /** Give the order the status its fill leaves it in. */
  method SettleStatus(session: Session, order: OrderRow) returns (error: Option<Failure>)
    requires session.order == order && Working(order.status)
    requires session.account != null && session.account.id == order.terms.accountId
    modifies session`account, session`events, session.account, order
    ensures var o, a := old(order.Value()), old(session.account.Value());
      var cancels := o.remaining != 0.0 && o.timeInForce.Ioc?;
      if cancels && Release(a, o).None? then error == Some(InvalidFill)
      else
        && error.None?
        && session.account == old(session.account)
        && session.account.Value() == (if cancels then Release(a, o).value else a)
        && order.Value() == (if cancels then CancelledOrder(o) else o.(status := StatusAfterFill(o)))
        && session.events == old(session.events) +
             (if cancels then
                [Link(order.id, PartialFillReceived, o.status, o.status), Link(order.id, OrderCancelled, o.status, Cancelled)]
              else
                [Link(order.id, if o.remaining == 0.0 then FullFillReceived else PartialFillReceived, o.status, StatusAfterFill(o))])
  {
    if order.remaining == 0.0 {
      var allowed := OrderLifecycle.Transition(session, order, Filled, FullFillReceived);
      assert allowed;
      return None;
    }
    if order.terms.timeInForce.Ioc? {
      OrderLifecycle.AppendEvent(session, order, PartialFillReceived, Some(order.status), order.status);
      error := CancelRemaining(session, order);
      return;
    }
    if order.status.Routed? {
      var allowed := OrderLifecycle.Transition(session, order, PartiallyFilled, PartialFillReceived);
      assert allowed;
    } else {
      OrderLifecycle.AppendEvent(session, order, PartialFillReceived, Some(order.status), order.status);
    }
    return None;
  }

  /** Why a fill that passed the guards is refused before its status is settled, if it is. */
  ghost function Refusal(m: Storage, e: BrokerEvent, v: View): Option<Failure>
    requires v.order.Some? && e.price.Some? && e.quantity > 0.0 && v.order.value.filled + e.quantity != 0.0
  {
    var o, q, p := v.order.value, e.quantity, e.price.value;
    if !v.fillFresh || !FillChecks(StoreFill(m, FillRow(e))) || !OrderChecks(StoreOrder(m, WithFill(o, q, p))) then
      Some(ConstraintViolation)
    else if v.account.None? then Some(AccountNotFound)
    else if Settle(v.account.value, o, q, p).None? then Some(InvalidFill)
    else if !AccountChecks(StoreAccount(m, Settle(v.account.value, o, q, p).value)) then Some(ConstraintViolation)
    else if !PositionChecks(StorePosition(m, Execute(v.position, v.mark, PositionRules.Trade(o.side, q, p)))) then
      Some(ConstraintViolation)
    else None
  }

  function FillRow(e: BrokerEvent): Fill
    requires e.price.Some?
  {
    Fill(e.orderId, e.eventId, ExecutionKey(e), e.quantity, e.price.value)
  }

  /** The order, the fill row, the money and the position of a fill. */
  method PrepareFill(session: Session, order: OrderRow, e: BrokerEvent, ghost v: View) returns (error: Option<Failure>)
    requires Sees(session, order, e, v) && e.price.Some? && e.quantity > 0.0 && order.filled >= 0.0
    modifies session`account, session`position, session`fill, order
    ensures error == Refusal(session.database.storage, e, v)
    ensures error.None? ==>
      var o, q, p := v.order.value, e.quantity, e.price.value;
      && session.account != null && fresh(session.account) && session.account.id == o.accountId
      && session.position != null && fresh(session.position)
      && session.fill == Some(FillRow(e))
      && order.Value() == WithFill(o, q, p)
      && session.account.Value() == Settle(v.account.value, o, q, p).value
      && session.position.Value() == Execute(v.position, v.mark, PositionRules.Trade(o.side, q, p))
  {
    hide Execute;
    hide Settle;
    hide WithFill;
    hide FillIsFresh;
    hide RowOk;
    hide StoreOrder;
    hide StoreAccount;
    hide StorePosition;
    hide StoreFill;
    hide AccountChecks;
    hide OrderChecks;
    hide PositionChecks;
    hide FillChecks;
    var quantity, price := e.quantity, e.price.value;
    TakeFill(order, quantity, price);
    session.fill := Some(Fill(order.id, e.eventId, ExecutionKey(e), quantity, price));
    if !session.Accepted() {
      return Some(ConstraintViolation);
    }
    var account := session.LockAccount(order.terms.accountId);
    if account == null {
      return Some(AccountNotFound);
    }
    FillFacts(session.database.storage, account.Value(), old(order.Value()), quantity, price);
    error := SettleCash(account, order, quantity, price);
    if error.Some? {
      return;
    }
    PositionService.ApplyExecution(session, order.Value().Key(), order.terms.side, quantity, price);
    if !session.Accepted() {
      return Some(ConstraintViolation);
    }
  }

  /** Apply a fill that passed the guards, and give the order the status it leads to. */
  method ExecuteFill(session: Session, order: OrderRow, e: BrokerEvent, ghost v: View) returns (error: Option<Failure>)
    requires Sees(session, order, e, v) && GuardFill(order.Value(), e).Take?
    modifies session`account, session`position, session`fill, session`events, order
    ensures session.order == order
    ensures Stands(session, error, FillVerdict(session.database.storage, e, v))
  {
    hide Execute;
    hide Settle;
    hide WithFill;
    hide Release;
    hide FillIsFresh;
    hide StoreOrder;
    hide StoreAccount;
    hide StorePosition;
    hide StoreFill;
    hide AccountChecks;
    hide OrderChecks;
    hide PositionChecks;
    hide FillChecks;
    assert order.filled >= 0.0 by { FilledNonNegative(session.database.storage, order.Value()); }
    if v.account.Some? {
      FillFacts(session.database.storage, v.account.value, order.Value(), e.quantity, e.price.value);
    }
    error := PrepareFill(session, order, e, v);
    if error.Some? {
      return;
    }
    error := SettleStatus(session, order);
  }

  /**
   * Apply a fill, or report why it does not apply. When it passes the guards the session stands exactly
   * where the fill's verdict says; otherwise nothing has changed.
   */
  method ApplyFill(session: Session, order: OrderRow, e: BrokerEvent, ghost v: View)
    returns (applied: bool, error: Option<Failure>)
    requires Sees(session, order, e, v)
    modifies session`account, session`position, session`fill, session`events, order
    ensures session.order == order
    ensures match GuardFill(old(order.Value()), e)
      case Malformed => error == Some(InvalidFill)
      case Take => Stands(session, error, FillVerdict(session.database.storage, e, v)) && applied == error.None?
      case _ => error.None? && !applied && Sees(session, order, e, v) && order.Value() == old(order.Value())
  {
    hide FillVerdict;
    hide FillIsFresh;
    hide RowOk;
    hide Stands;
    if !Working(order.status) {
      return false, None;
    }
    if e.price.None? || e.quantity <= 0.0 {
      return false, Some(InvalidFill);
    }
    if e.quantity > order.remaining {
      return false, None;
    }
    if e.kind.FullFill? && e.quantity != order.remaining {
      return false, None;
    }
    error := ExecuteFill(session, order, e, v);
    applied := error.None?;
  }

  lemma FilledNonNegative(m: Storage, o: Order)
    requires RowOk(m, o)
    ensures o.filled >= 0.0
  {
  }

  /** What the rows keep while a fill is applied to them. */
  lemma FillFacts(m: Storage, a: Account, o: Order, quantity: real, price: real)
    requires o.filled + quantity != 0.0
    ensures var o1 := WithFill(o, quantity, price);
      && o1.status == o.status && o1.Key() == o.Key() && o1.timeInForce == o.timeInForce
      && Settle(a, o1, quantity, price) == Settle(a, o, quantity, price)
      && OrderChecks(StoreOrder(m, o1)) == OrderChecks(StoreOrder(m, o1.(status := StatusAfterFill(o1))))
    ensures var paid := Settle(a, o, quantity, price);
      paid.Some? ==>
        && paid.value.version > a.version
        && (Release(paid.value, WithFill(o, quantity, price)).Some? ==>
              Release(paid.value, WithFill(o, quantity, price)).value.version > a.version)
  {
    hide Stored;
  }

  method ApplyRejection(session: Session, order: OrderRow, e: BrokerEvent, ghost v: View)
    returns (applied: bool, error: Option<Failure>)
    requires Sees(session, order, e, v)
    modifies session`account, session`events, order
    ensures session.order == order
    ensures if old(order.status).Routed? then
        && applied == error.None?
        && Stands(session, error, CloseVerdict(session.database.storage, e, v,
                                               RejectedOrder(old(order.Value()), ReasonOr(e, "Rejected by broker")), OrderRejected))
      else error.None? && !applied && Sees(session, order, e, v) && order.Value() == old(order.Value())
  {
    hide FillIsFresh;
    hide StoreOrder;
    hide StoreAccount;
    hide AccountChecks;
    hide OrderChecks;
    if !order.status.Routed? {
      return false, None;
    }
    var account := session.LockAccount(order.terms.accountId);
    if account == null {
      return false, Some(AccountNotFound);
    }
    error := ReleaseRemainingReservation(account, order);
    if error.Some? {
      return false, error;
    }
    order.rejection := Some(ReasonOr(e, "Rejected by broker"));
    var allowed := OrderLifecycle.Transition(session, order, Rejected, OrderRejected);
    assert allowed;
    return true, None;
  }

  method ApplyCancellation(session: Session, order: OrderRow, e: BrokerEvent, ghost v: View)
    returns (applied: bool, error: Option<Failure>)
    requires Sees(session, order, e, v)
    modifies session`account, session`events, order
    ensures session.order == order
    ensures if Working(old(order.status)) then
        && applied == error.None?
        && Stands(session, error, CloseVerdict(session.database.storage, e, v, CancelledOrder(old(order.Value())), OrderCancelled))
      else error.None? && !applied && Sees(session, order, e, v) && order.Value() == old(order.Value())
  {
    hide FillIsFresh;
    hide StoreOrder;
    hide StoreAccount;
    hide AccountChecks;
    hide OrderChecks;
    if !Working(order.status) {
      return false, None;
    }
    error := CancelRemaining(session, order);
    applied := error.None?;
  }

  method Dispatch(session: Session, order: OrderRow, e: BrokerEvent, ghost v: View)
    returns (applied: bool, error: Option<Failure>)
    requires Sees(session, order, e, v) && !v.duplicate
    modifies session`account, session`position, session`fill, session`events, order
    ensures session.order == order
    ensures var o, verdict := old(order.Value()), HandleVerdict(session.database.storage, e, v);
      if TakesEffect(o, e) then applied == error.None? && Stands(session, error, verdict)
      else if verdict.Refuse? then error == Some(verdict.failure)
      else error.None? && !applied && verdict == IgnoreVerdict(e, o) && Sees(session, order, e, v) && order.Value() == o
  {
    hide FillVerdict;
    hide CloseVerdict;
    hide FillIsFresh;
    hide RowOk;
    hide Stands;
    match e.kind
    case FullFill => applied, error := ApplyFill(session, order, e, v);
    case PartialFill => applied, error := ApplyFill(session, order, e, v);
    case Reject => applied, error := ApplyRejection(session, order, e, v);
    case Cancel => applied, error := ApplyCancellation(session, order, e, v);
  }

  /** An event that takes effect is recorded and answered as applied, and calls nobody. */
  lemma EffectIsRecorded(m: Storage, e: BrokerEvent, v: View)
    requires v.order.Some? && !v.duplicate && TakesEffect(v.order.value, e)
    ensures var r := HandleVerdict(m, e, v);
      && !r.Keep?
      && (r.Write? ==> r.answer == Applied(true) && r.change.processed == AppliedRow(e) && r.change.outbox == [])
  {
    hide Stored;
    hide Execute;
    hide AccountChecks;
    hide OrderChecks;
    hide PositionChecks;
    hide Settle;
    hide Release;
    hide WithFill;
  }

  /** Dispatch the event and record that it was processed, applied or not. */
  method HandleLocked(session: Session, order: OrderRow, e: BrokerEvent, ghost v: View)
    returns (applied: bool, error: Option<Failure>)
    requires Sees(session, order, e, v) && !v.duplicate
    modifies session`account, session`position, session`fill, session`processed, session`events, order
    ensures session.order == order
    ensures session.Concludes(error, Applied(applied), HandleVerdict(session.database.storage, e, v))
  {
    hide HandleVerdict;
    hide FillIsFresh;
    hide StoreOrder;
    hide StoreAccount;
    hide StorePosition;
    hide StoreFill;
    hide AccountChecks;
    hide OrderChecks;
    hide PositionChecks;
    hide FillChecks;
    applied, error := Dispatch(session, order, e, v);
    if TakesEffect(old(order.Value()), e) {
      EffectIsRecorded(session.database.storage, e, v);
    }
    hide TakesEffect;
    if error.Some? {
      return;
    }
    session.processed := Some((e.eventId, Processed(e.orderId, e.kind, applied)));
    if !applied {
      OrderLifecycle.AppendEvent(session, order, BrokerEventIgnored, Some(order.status), order.status);
    }
  }

  /**
   * Handle one broker event in a transaction of its own: the tables and the answer are those of the
   * atomic step, whatever calls have been made to the broker so far.
   */
  method ProcessEvent(database: Database, e: BrokerEvent, ghost calls: seq<Outbound>) returns (outcome: Outcome)
    requires database.Valid()
    modifies database
    ensures database.Valid()
    ensures Result(database.Tables(calls), outcome) == Step(database.storage, old(database.Tables(calls)), Handle(e))
  {
    hide HandleVerdict;
    hide FillIsFresh;
    hide OrdersOk;
    hide Commit;
    ghost var v := ViewOf(database.Tables(calls), Handle(e));
    MissingOrRepeated(database.storage, e, v);
    var session := new Session(database);
    var order := session.LockOrder(e.orderId);
    if order == null {
      return Fail(OrderNotFound);
    }
    if e.eventId in database.processed {
      return Ok(Applied(false));
    }
    OrderIsOk(database, order.id);
    hide RowOk;
    var applied, error := HandleLocked(session, order, e, v);
    NoCalls(database.storage, e, v);
    outcome := session.Finish(error, Applied(applied), HandleVerdict(database.storage, e, v), calls);
  }

  /** Handling an event never calls the broker. */
  lemma NoCalls(m: Storage, e: BrokerEvent, v: View)
    ensures HandleVerdict(m, e, v).Write? ==> HandleVerdict(m, e, v).change.outbox == []
  {
    hide TakesEffect;
    if v.order.Some? && !v.duplicate && TakesEffect(v.order.value, e) {
      EffectIsRecorded(m, e, v);
    } else {
      NoteOnly(m, e, v);
    }
  }

  lemma NoteOnly(m: Storage, e: BrokerEvent, v: View)
    requires v.order.None? || v.duplicate || !TakesEffect(v.order.value, e)
    ensures HandleVerdict(m, e, v).Write? ==> HandleVerdict(m, e, v).change.outbox == []
  {
    hide FillVerdict;
    hide CloseVerdict;
  }

  lemma MissingOrRepeated(m: Storage, e: BrokerEvent, v: View)
    ensures v.order.None? ==> HandleVerdict(m, e, v) == Refuse(OrderNotFound)
    ensures v.order.Some? && v.duplicate ==> HandleVerdict(m, e, v) == Keep(Applied(false))
  {
  }
}
