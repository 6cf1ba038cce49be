/** Every transaction writes a good change, so every step and every run keeps the invariant. */
module Steps {
  import opened Types
  import opened Numeric
  import opened Tables
  import opened OrderRules
  import opened PositionRules
  import opened History
  import opened Transactions
  import opened Invariant
  import Sums
  import InvariantKept

  /**
   * Quantities and prices of new orders and of fills have at most eight decimals when storage rounds;
   * exact storage asks for nothing.
   */
  predicate CleanCommand(m: Storage, c: Command) {
    match c
    case Place(p, _, _) => Clean(m, p.quantity) && Clean(m, p.price)
    case Handle(e) => IsFill(e) ==> Clean(m, e.quantity) && (e.price.Some? ==> Clean(m, e.price.value))
    case _ => true
  }

  lemma StoreKeepsOrder(m: Storage, o: Order)
    requires CleanOrder(m, o)
    ensures StoreOrder(m, o) == o
  {
  }

  // ---------- creating an order ----------

  lemma NewOrderIsClean(m: Storage, p: Payload, expiry: int)
    requires Clean(m, p.quantity) && Clean(m, p.price)
    ensures CleanOrder(m, NewOrder(p, expiry))
  {
    CleanZero(m);
  }

  lemma PlaceOrderPart(m: Storage, db: Db, c: Command)
    requires Inv(m, db) && c.Place? && CleanCommand(m, c)
    requires Judge(m, c, ViewOf(db, c)).Write?
    ensures OrderPart(m, db, Judge(m, c, ViewOf(db, c)).change)
  {
    hide Stored;
    hide Inv;
    var ch := Judge(m, c, ViewOf(db, c)).change;
    var o := NewOrder(c.payload, c.expiry);
    NewOrderIsClean(m, c.payload, c.expiry);
    StoreKeepsOrder(m, o);
    StoreKeepsOrder(m, ch.order);
    assert OrderOk(m, ch.order);
    hide OrderOk;
  }

  lemma PlaceMoneyParts(m: Storage, db: Db, c: Command)
    requires c.Place? && CleanCommand(m, c)
    requires Judge(m, c, ViewOf(db, c)).Write?
    ensures var ch := Judge(m, c, ViewOf(db, c)).change;
      LedgerPart(m, db, ch) && FillPart(m, db, ch) && PositionPart(m, db, ch) && ProcessedPart(db, ch)
  {
    hide Stored;
    var ch := Judge(m, c, ViewOf(db, c)).change;
    var o := NewOrder(c.payload, c.expiry);
    NewOrderIsClean(m, c.payload, c.expiry);
    StoreKeepsOrder(m, o);
    StoreKeepsOrder(m, ch.order);
  }

  lemma PlaceTails(id: Uuid)
    ensures IsTail([AuditEvent(id, OrderCreated, None, New), Link(id, ValidationFailed, New, Rejected)], id, None, Rejected)
    ensures IsTail([AuditEvent(id, OrderCreated, None, New), Link(id, OrderValidated, New, Validated),
                    Link(id, OrderRouted, Validated, Routed)], id, None, Routed)
  {
  }

  lemma PlaceLogParts(m: Storage, db: Db, c: Command)
    requires c.Place?
    requires Judge(m, c, ViewOf(db, c)).Write?
    ensures var ch := Judge(m, c, ViewOf(db, c)).change; AuditPart(db, ch) && OutboxPart(db, ch)
  {
    hide Stored;
    hide AccountChecks;
    hide OrderChecks;
    hide IsTail;
    PlaceTails(c.orderId);
    BrokerKinds(Judge(m, c, ViewOf(db, c)).change.audit);
  }

  lemma PlaceIsGood(m: Storage, db: Db, c: Command)
    requires Inv(m, db) && c.Place? && CleanCommand(m, c)
    requires Judge(m, c, ViewOf(db, c)).Write?
    ensures GoodChange(m, db, Judge(m, c, ViewOf(db, c)).change)
  {
    hide Inv;
    hide OrderPart;
    hide AuditPart;
    hide LedgerPart;
    hide FillPart;
    hide PositionPart;
    hide ProcessedPart;
    hide OutboxPart;
    PlaceOrderPart(m, db, c);
    PlaceMoneyParts(m, db, c);
    PlaceLogParts(m, db, c);
  }

  function One(e: AuditEvent, k: AuditKind): nat { if e.kind == k then 1 else 0 }

  lemma CountsOfFew(es: seq<AuditEvent>, k: AuditKind)
    requires 1 <= |es| <= 3
    ensures CountKind(es, k) ==
      One(es[0], k) + (if |es| > 1 then One(es[1], k) else 0) + (if |es| > 2 then One(es[2], k) else 0)
  {
    if |es| > 1 {
      CountsOfFew(es[..|es| - 1], k);
    } else {
      assert es[..0] == [];
    }
  }

  lemma BrokerKinds(es: seq<AuditEvent>)
    requires 1 <= |es| <= 3
    ensures CountKind(es, OrderRouted) ==
      One(es[0], OrderRouted) + (if |es| > 1 then One(es[1], OrderRouted) else 0) + (if |es| > 2 then One(es[2], OrderRouted) else 0)
    ensures CountKind(es, CancelRequested) ==
      One(es[0], CancelRequested) + (if |es| > 1 then One(es[1], CancelRequested) else 0) +
      (if |es| > 2 then One(es[2], CancelRequested) else 0)
  {
    CountsOfFew(es, OrderRouted);
    CountsOfFew(es, CancelRequested);
  }

  // ---------- closing an order without a fill ----------

  lemma CancelledIsClean(m: Storage, o: Order)
    requires CleanOrder(m, o)
    ensures CleanOrder(m, CancelledOrder(o))
  {
    CleanSum(m, o.cancelled, o.remaining);
    CleanZero(m);
  }

  predicate Closes(o: Order, closed: Order) {
    || closed == CancelledOrder(o)
    || (o.status.Routed? && closed.rejection.Some? && closed == RejectedOrder(o, closed.rejection.value))
  }

  lemma ClosedRow(m: Storage, o: Order, closed: Order)
    requires OrderOk(m, o) && Working(o.status) && Closes(o, closed)
    ensures OrderOk(m, closed) && StoreOrder(m, closed) == closed && SameIdentity(o, closed)
    ensures closed.filled == o.filled && closed.average == o.average
    ensures Held(closed, closed.accountId) == 0.0
    ensures Held(o, o.accountId) == (if HoldsCash(o) then RemainingNotional(o) else 0.0)
  {
    hide Stored;
    CancelledIsClean(m, o);
    StoreKeepsOrder(m, closed);
  }

  /** A change that closes a working order without a fill and gives back what it held. */
  predicate IsClosing(m: Storage, db: Db, c: Change) {
    && c.orderId in db.orders
    && var o := db.orders[c.orderId];
    && Working(o.status) && OrderOk(m, o) && Closes(o, c.order)
    && o.accountId in db.accounts
    && c.account == (if HoldsCash(o) then Some(Unreserve(db.accounts[o.accountId], RemainingNotional(o))) else None)
    && (HoldsCash(o) ==> AccountChecks(StoreAccount(m, c.account.value)))
    && c.fill.None? && c.position.None? && c.outbox == []
    && |c.audit| == 1
    && c.audit[0] == Link(c.orderId, c.audit[0].kind, o.status, c.order.status)
    && !c.audit[0].kind.OrderRouted? && !c.audit[0].kind.CancelRequested?
    && ProcessedPart(db, c)
  }

  lemma ClosingLogs(m: Storage, db: Db, c: Change)
    requires IsClosing(m, db, c)
    ensures AuditPart(db, c) && OutboxPart(db, c)
  {
    hide Stored;
    hide OrderOk;
    hide AccountChecks;
    BrokerKinds(c.audit);
  }

  lemma ClosingRows(m: Storage, db: Db, c: Change)
    requires IsClosing(m, db, c)
    ensures OrderPart(m, db, c) && FillPart(m, db, c) && PositionPart(m, db, c)
  {
    hide Stored;
    ClosedRow(m, db.orders[c.orderId], c.order);
    hide OrderOk;
    hide AccountChecks;
    hide Held;
  }

  lemma ClosingLedger(m: Storage, db: Db, c: Change)
    requires IsClosing(m, db, c)
    ensures LedgerPart(m, db, c)
  {
    hide Stored;
    ClosedRow(m, db.orders[c.orderId], c.order);
    hide OrderOk;
    hide AccountChecks;
    hide Held;
  }

  lemma ClosingIsGood(m: Storage, db: Db, c: Change)
    requires IsClosing(m, db, c)
    ensures GoodChange(m, db, c)
  {
    hide OrderPart;
    hide AuditPart;
    hide LedgerPart;
    hide FillPart;
    hide PositionPart;
    hide OutboxPart;
    ClosingLogs(m, db, c);
    ClosingRows(m, db, c);
    ClosingLedger(m, db, c);
    assert ProcessedPart(db, c);
  }

  lemma RoutingFailedIsGood(m: Storage, db: Db, c: Command)
    requires Inv(m, db) && c.RoutingFailed?
    requires Judge(m, c, ViewOf(db, c)).Write?
    ensures GoodChange(m, db, Judge(m, c, ViewOf(db, c)).change)
  {
    hide Stored;
    hide AuditInv;
    hide FillsInv;
    hide LedgerInv;
    hide PositionsInv;
    hide OutboxInv;
    hide UniqueKeys;
    hide GoodChange;
    assert OrderOk(m, db.orders[c.orderId]);
    ClosingIsGood(m, db, Judge(m, c, ViewOf(db, c)).change);
  }

  lemma PendingRow(m: Storage, o: Order)
    requires OrderOk(m, o) && Uncancelled(o.status)
    ensures var p := o.(status := CancelPending);
      && OrderOk(m, p) && StoreOrder(m, p) == p && SameIdentity(o, p)
      && Held(p, p.accountId) == Held(o, o.accountId)
  {
    hide Stored;
    StoreKeepsOrder(m, o.(status := CancelPending));
  }

  lemma RequestCancelIsGood(m: Storage, db: Db, c: Command)
    requires Inv(m, db) && c.RequestCancel?
    requires Judge(m, c, ViewOf(db, c)).Write?
    ensures GoodChange(m, db, Judge(m, c, ViewOf(db, c)).change)
  {
    hide Stored;
    hide AuditInv;
    hide FillsInv;
    hide LedgerInv;
    hide PositionsInv;
    hide OutboxInv;
    hide UniqueKeys;
    var ch := Judge(m, c, ViewOf(db, c)).change;
    var o := db.orders[c.orderId];
    assert OrderOk(m, o);
    PendingRow(m, o);
    hide OrderOk;
    hide Held;
    hide AccountChecks;
    BrokerKinds(ch.audit);
  }

  lemma IgnoreIsGood(m: Storage, db: Db, e: BrokerEvent)
    requires Inv(m, db) && e.orderId in db.orders && e.eventId !in db.processed
    ensures GoodChange(m, db, IgnoreVerdict(e, db.orders[e.orderId]).change)
  {
    hide Stored;
    hide AuditInv;
    hide FillsInv;
    hide LedgerInv;
    hide PositionsInv;
    hide OutboxInv;
    var ch := IgnoreVerdict(e, db.orders[e.orderId]).change;
    StoreKeepsOrder(m, db.orders[e.orderId]);
    BrokerKinds(ch.audit);
  }

  /** Everything a committed rejection or cancellation writes. */
  lemma CloseWrites(m: Storage, e: BrokerEvent, v: View, closed: Order, kind: AuditKind)
    requires v.order.Some? && CloseVerdict(m, e, v, closed, kind).Write?
    ensures var o, c := v.order.value, CloseVerdict(m, e, v, closed, kind).change;
      && v.account.Some?
      && c == Change(e.orderId, closed,
                     if HoldsCash(o) then Some(Unreserve(v.account.value, RemainingNotional(o))) else None,
                     None, None, AppliedRow(e), [Link(e.orderId, kind, o.status, closed.status)], [])
      && (HoldsCash(o) ==> AccountChecks(StoreAccount(m, c.account.value)))
  {
    hide Stored;
  }

  /** Rejecting or cancelling at the broker, once the guard has passed. */
  lemma CloseIsGood(m: Storage, db: Db, e: BrokerEvent, v: View, closed: Order, kind: AuditKind)
    requires Inv(m, db) && e.orderId in db.orders && e.eventId !in db.processed
    requires v.order == Some(db.orders[e.orderId]) && v.account == Lookup(db.accounts, closed.accountId)
    requires Working(db.orders[e.orderId].status) && Closes(db.orders[e.orderId], closed)
    requires kind != OrderRouted && kind != CancelRequested
    requires CloseVerdict(m, e, v, closed, kind).Write?
    ensures GoodChange(m, db, CloseVerdict(m, e, v, closed, kind).change)
  {
    hide Stored;
    hide AuditInv;
    hide FillsInv;
    hide LedgerInv;
    hide PositionsInv;
    hide OutboxInv;
    hide UniqueKeys;
    hide CloseVerdict;
    hide GoodChange;
    assert OrderOk(m, db.orders[e.orderId]);
    CloseWrites(m, e, v, closed, kind);
    ClosingIsGood(m, db, CloseVerdict(m, e, v, closed, kind).change);
  }

  // ---------- fills ----------

  lemma AverageAbsorbsFill(m: Storage, v: real, f: real)
    requires f > 0.0
    ensures Within(m, f * Stored(m, v / f) - v, f)
  {
    hide Round8;
    var x := v / f;
    var d := Stored(m, x) - x;
    WithinScaled(m, d, f, 1.0);
    assert f * x == v;
    assert f * Stored(m, x) - v == f * d;
  }

  /** The order row a fill leaves behind, up to its status. */
  lemma FilledRow(m: Storage, o: Order, q: real, p: real)
    requires OrderOk(m, o) && q > 0.0 && Clean(m, q)
    ensures var o1 := WithFill(o, q, p); var s := StoreOrder(m, o1);
      && s == o1.(average := s.average)
      && s.average.Some? && CleanOrder(m, s)
      && Within(m, ValueFilled(s) - ValueFilled(o) - Notional(q, p), s.filled)
  {
    hide Round8;
    CleanSum(m, o.filled, q);
    CleanSum(m, o.remaining, q);
    var v := ValueFilled(o) + Notional(q, p);
    StoredIsClean(m, v / (o.filled + q));
    AverageAbsorbsFill(m, v, o.filled + q);
  }

  /** The order a fill commits: settled by the fill alone, or with an IOC remainder cancelled. */
  function FillOutcome(o: Order, q: real, p: real): Order
    requires o.filled + q != 0.0
  {
    var o1 := WithFill(o, q, p);
    if o1.remaining != 0.0 && o.timeInForce.Ioc? then CancelledOrder(o1) else o1.(status := StatusAfterFill(o1))
  }

  lemma FillOutcomeRow(m: Storage, o: Order, q: real, p: real)
    requires OrderOk(m, o) && Working(o.status) && 0.0 < q <= o.remaining && Clean(m, q)
    ensures var f := FillOutcome(o, q, p); var s := StoreOrder(m, f);
      && OrderOk(m, s) && s == f.(average := s.average) && SameIdentity(o, s)
      && s.filled == o.filled + q
      && Within(m, ValueFilled(s) - ValueFilled(o) - Notional(q, p), s.filled)
  {
    hide Stored;
    var o1 := WithFill(o, q, p);
    FilledRow(m, o, q, p);
    CleanSum(m, o.cancelled, o1.remaining);
    CleanZero(m);
    var s1, s := StoreOrder(m, o1), StoreOrder(m, FillOutcome(o, q, p));
    assert ValueFilled(s) == ValueFilled(s1);
    hide ValueFilled;
    hide WithFill;
  }

  /** The cash an order holds falls by the fill's share, and by the rest when the remainder is cancelled. */
  lemma FillOutcomeHeld(m: Storage, o: Order, q: real, p: real)
    requires OrderOk(m, o) && Working(o.status) && 0.0 < q <= o.remaining && Clean(m, q) && o.side.Buy?
    ensures var f := FillOutcome(o, q, p); var o1 := WithFill(o, q, p);
      Held(StoreOrder(m, f), o.accountId) - Held(o, o.accountId) ==
        -(q * o.price) - (if f == CancelledOrder(o1) && o1.remaining != 0.0 then o1.remaining * o.price else 0.0)
  {
    hide Stored;
    FillOutcomeRow(m, o, q, p);
    hide OrderOk;
    var o1 := WithFill(o, q, p);
    assert o1.remaining * o.price == RemainingNotional(o) - q * o.price;
  }

  /** The account a fill commits. */
  function FillAccount(a: Account, o: Order, q: real, p: real): Option<Account>
    requires o.filled + q != 0.0
  {
    var paid, o1 := Settle(a, o, q, p), WithFill(o, q, p);
    if paid.Some? && o1.remaining != 0.0 && o.timeInForce.Ioc? then Release(paid.value, o1) else paid
  }

  /** The audit entries of a fill: the fill itself, and the cancellation of an IOC remainder. */
  function FillAudit(id: Uuid, o: Order, after: Order): seq<AuditEvent> {
    if after.status.Cancelled? then [Link(id, PartialFillReceived, o.status, o.status), Link(id, OrderCancelled, o.status, Cancelled)]
    else [Link(id, if after.remaining == 0.0 then FullFillReceived else PartialFillReceived, o.status, after.status)]
  }

  /** Everything a committed fill writes, in one place. */
  lemma FillWrites(m: Storage, e: BrokerEvent, v: View)
    requires v.order.Some? && Working(v.order.value.status) && e.price.Some? && e.quantity > 0.0
    requires FillVerdict(m, e, v).Write?
    ensures var o, q, p := v.order.value, e.quantity, e.price.value;
      && o.filled + q != 0.0 && v.account.Some? && v.fillFresh
      && Settle(v.account.value, o, q, p).Some?
      && AccountChecks(StoreAccount(m, Settle(v.account.value, o, q, p).value))
      && FillAccount(v.account.value, o, q, p).Some?
    ensures var o, q, p, c := v.order.value, e.quantity, e.price.value, FillVerdict(m, e, v).change;
      && c.orderId == e.orderId
      && c.order == FillOutcome(o, q, p)
      && OrderChecks(StoreOrder(m, c.order))
      && c.account == FillAccount(v.account.value, o, q, p)
      && AccountChecks(StoreAccount(m, c.account.value))
      && c.fill == Some(Fill(e.orderId, e.eventId, ExecutionKey(e), q, p))
      && FillChecks(StoreFill(m, c.fill.value))
      && c.position == Some(Execute(v.position, v.mark, Trade(o.side, q, p)))
      && c.processed == AppliedRow(e)
      && c.outbox == []
      && c.audit == FillAudit(e.orderId, o, c.order)
  {
    hide Stored;
    hide AccountChecks;
    hide Execute;
    hide PositionChecks;
  }

  /** The event is a fill that passes every check against the current database. */
  ghost predicate Fillable(m: Storage, db: Db, e: BrokerEvent) {
    && IsFill(e)
    && e.orderId in db.orders
    && e.eventId !in db.processed
    && CleanCommand(m, Handle(e))
    && GuardFill(db.orders[e.orderId], e).Take?
    && FillVerdict(m, e, ViewOf(db, Handle(e))).Write?
  }

  ghost function FillChange(m: Storage, db: Db, e: BrokerEvent): Change
    requires Fillable(m, db, e)
  {
    FillVerdict(m, e, ViewOf(db, Handle(e))).change
  }

  lemma FillIsGood(m: Storage, db: Db, e: BrokerEvent)
    requires Inv(m, db) && Fillable(m, db, e)
    ensures GoodChange(m, db, FillChange(m, db, e))
    ensures FillChange(m, db, e).fill == Some(Fill(e.orderId, e.eventId, ExecutionKey(e), e.quantity, e.price.value))
  {
    hide OrderPart;
    hide AuditPart;
    hide LedgerPart;
    hide FillPart;
    hide PositionPart;
    hide ProcessedPart;
    hide OutboxPart;
    hide Inv;
    hide FillVerdict;
    FillWrites(m, e, ViewOf(db, Handle(e)));
    FillOrderPart(m, db, e);
    FillRowPart(m, db, e);
    FillPositionPart(m, db, e);
    FillLedgerPart(m, db, e);
    FillLogParts(m, db, e);
  }

  lemma FillOrderPart(m: Storage, db: Db, e: BrokerEvent)
    requires Inv(m, db) && Fillable(m, db, e)
    ensures OrderPart(m, db, FillChange(m, db, e))
  {
    hide Stored;
    hide AuditInv;
    hide FillsInv;
    hide LedgerInv;
    hide PositionsInv;
    hide OutboxInv;
    hide UniqueKeys;
    hide FillVerdict;
    var o := db.orders[e.orderId];
    assert OrderOk(m, o);
    FillWrites(m, e, ViewOf(db, Handle(e)));
    FillOutcomeRow(m, o, e.quantity, e.price.value);
    hide OrderOk;
    hide FillOutcome;
  }

  lemma FillRowFrom(m: Storage, db: Db, c: Change, f: Fill)
    requires c.orderId in db.orders && c.fill == Some(f) && f.orderId == c.orderId
    requires StoreFill(m, f) == f && FillChecks(f) && FillIsFresh(db.fills, f.eventId, f.executionId)
    requires c.processed.Some? && c.processed.value.0 == f.eventId && c.processed.value.1.applied
    requires var s := StoreOrder(m, c.order);
      && s.filled == db.orders[c.orderId].filled + f.quantity
      && Within(m, ValueFilled(s) - ValueFilled(db.orders[c.orderId]) - Notional(f.quantity, f.price), s.filled)
    ensures FillPart(m, db, c)
  {
    hide Stored;
    hide ValueFilled;
    hide FillIsFresh;
  }

  lemma FillOutcomeTotals(m: Storage, o: Order, q: real, p: real)
    requires OrderOk(m, o) && Working(o.status) && 0.0 < q <= o.remaining && Clean(m, q)
    ensures var s := StoreOrder(m, FillOutcome(o, q, p));
      && s.filled == o.filled + q
      && Within(m, ValueFilled(s) - ValueFilled(o) - Notional(q, p), s.filled)
  {
    hide Stored;
    hide OrderOk;
    hide FillOutcome;
    FillOutcomeRow(m, o, q, p);
  }

  lemma FillRowPart(m: Storage, db: Db, e: BrokerEvent)
    requires Inv(m, db) && Fillable(m, db, e)
    ensures FillPart(m, db, FillChange(m, db, e)) && ProcessedPart(db, FillChange(m, db, e))
  {
    hide Round8;
    hide AuditInv;
    hide FillsInv;
    hide LedgerInv;
    hide PositionsInv;
    hide OutboxInv;
    hide UniqueKeys;
    hide FillVerdict;
    hide Execute;
    hide AccountChecks;
    hide OrderChecks;
    hide FillAccount;
    hide FillOutcome;
    hide FillIsFresh;
    hide FillPart;
    hide WithFill;
    hide ValueFilled;
    var o := db.orders[e.orderId];
    assert OrderOk(m, o);
    hide OrderOk;
    FillWrites(m, e, ViewOf(db, Handle(e)));
    FillOutcomeTotals(m, o, e.quantity, e.price.value);
    FillRowFrom(m, db, FillChange(m, db, e), Fill(e.orderId, e.eventId, ExecutionKey(e), e.quantity, e.price.value));
  }

  lemma FillPositionPart(m: Storage, db: Db, e: BrokerEvent)
    requires Fillable(m, db, e)
    ensures PositionPart(m, db, FillChange(m, db, e))
  {
    hide Stored;
    hide FillVerdict;
    hide Execute;
    hide AccountChecks;
    hide OrderChecks;
    hide Settle;
    hide FillAccount;
    FillWrites(m, e, ViewOf(db, Handle(e)));
  }

  lemma FillLedgerPart(m: Storage, db: Db, e: BrokerEvent)
    requires Inv(m, db) && Fillable(m, db, e)
    ensures LedgerPart(m, db, FillChange(m, db, e))
  {
    hide Stored;
    hide AuditInv;
    hide FillsInv;
    hide LedgerInv;
    hide PositionsInv;
    hide OutboxInv;
    hide UniqueKeys;
    hide FillVerdict;
    hide Execute;
    hide AccountChecks;
    hide FillAccount;
    var o, q, p := db.orders[e.orderId], e.quantity, e.price.value;
    assert OrderOk(m, o);
    FillWrites(m, e, ViewOf(db, Handle(e)));
    FillAccountReserved(m, db.accounts[o.accountId], o, q, p);
  }

  /** The reserved cash moves with the held cash. */
  lemma FillAccountReserved(m: Storage, a: Account, o: Order, q: real, p: real)
    requires OrderOk(m, o) && Working(o.status) && 0.0 < q <= o.remaining && Clean(m, q)
    requires FillAccount(a, o, q, p).Some?
    ensures var b := FillAccount(a, o, q, p).value;
      && b.version > a.version && b.userId == a.userId
      && a.cash - b.cash == Trade(o.side, q, p).Flow()
      && b.reserved - a.reserved == Held(StoreOrder(m, FillOutcome(o, q, p)), o.accountId) - Held(o, o.accountId)
  {
    hide Stored;
    hide Within;
    if o.side.Buy? {
      FillOutcomeHeld(m, o, q, p);
    }
    FillOutcomeRow(m, o, q, p);
    hide OrderOk;
  }

  lemma FillTail(m: Storage, id: Uuid, o: Order, q: real, p: real)
    requires OrderOk(m, o) && Working(o.status) && 0.0 < q <= o.remaining
    ensures var after := FillOutcome(o, q, p);
      IsTail(FillAudit(id, o, after), id, Some(o.status), after.status)
  {
    hide Stored;
  }

  lemma FillLogParts(m: Storage, db: Db, e: BrokerEvent)
    requires Inv(m, db) && Fillable(m, db, e)
    ensures AuditPart(db, FillChange(m, db, e)) && OutboxPart(db, FillChange(m, db, e))
  {
    hide Stored;
    hide AuditInv;
    hide FillsInv;
    hide LedgerInv;
    hide PositionsInv;
    hide OutboxInv;
    hide UniqueKeys;
    hide FillVerdict;
    hide Execute;
    hide Settle;
    hide FillAccount;
    hide AccountChecks;
    hide OrderChecks;
    hide IsTail;
    var o := db.orders[e.orderId];
    assert OrderOk(m, o);
    hide OrderOk;
    FillWrites(m, e, ViewOf(db, Handle(e)));
    FillTail(m, e.orderId, o, e.quantity, e.price.value);
    BrokerKinds(FillChange(m, db, e).audit);
  }

  // ---------- every step ----------

  lemma HandleIsGood(m: Storage, db: Db, e: BrokerEvent)
    requires Inv(m, db) && CleanCommand(m, Handle(e))
    requires HandleVerdict(m, e, ViewOf(db, Handle(e))).Write?
    ensures var ch := HandleVerdict(m, e, ViewOf(db, Handle(e))).change;
      && GoodChange(m, db, ch)
      && (ch.fill.Some? ==> Clean(m, ch.fill.value.quantity) && Clean(m, ch.fill.value.price))
  {
    hide Stored;
    hide GoodChange;
    hide FillVerdict;
    hide Inv;
    var o := db.orders[e.orderId];
    if IsFill(e) && GuardFill(o, e).Take? {
      FillIsGood(m, db, e);
    } else if e.kind.Reject? && o.status.Routed? {
      CloseIsGood(m, db, e, ViewOf(db, Handle(e)), RejectedOrder(o, ReasonOr(e, "Rejected by broker")), OrderRejected);
    } else if e.kind.Cancel? && Working(o.status) {
      CloseIsGood(m, db, e, ViewOf(db, Handle(e)), CancelledOrder(o), OrderCancelled);
    } else {
      IgnoreIsGood(m, db, e);
    }
  }

  /** What any transaction on one order writes is a good change. */
  lemma WriteIsGood(m: Storage, db: Db, c: Command)
    requires Inv(m, db) && OnOneOrder(c) && CleanCommand(m, c)
    requires Judge(m, c, ViewOf(db, c)).Write?
    ensures var ch := Judge(m, c, ViewOf(db, c)).change;
      && GoodChange(m, db, ch)
      && (ch.fill.Some? ==> Clean(m, ch.fill.value.quantity) && Clean(m, ch.fill.value.price))
  {
    hide Stored;
    hide GoodChange;
    hide HandleVerdict;
    hide Inv;
    match c
    case Place(_, _, _) => PlaceIsGood(m, db, c);
    case RoutingFailed(_, _) => RoutingFailedIsGood(m, db, c);
    case RequestCancel(_, _) => RequestCancelIsGood(m, db, c);
    case Handle(e) => HandleIsGood(m, db, e);
  }

  lemma {:induction false} SumOfZeros<K(!new)>(s: map<K, real>)
    requires forall k :: k in s ==> s[k] == 0.0
    ensures Sums.Sum(s) == 0.0
  {
    Sums.SumNonNegative(s);
    if s != map[] {
      var k :| k in s;
      Sums.SumWithout(s, k);
      SumOfZeros(s - {k});
    }
  }

  lemma NewLedgerEntry(m: Storage, db: Db, id: Uuid, a: Account)
    requires OrdersInv(m, db) && LedgerInv(m, db) && id !in db.accounts
    requires AccountChecks(a) && Clean(m, a.cash) && a.reserved == 0.0 && a.version == 1
    ensures LedgerInv(m, db.(accounts := db.accounts[id := a]))
  {
    hide OrderOk;
    hide UniqueKeys;
    CleanZero(m);
    hide Stored;
    assert forall o :: o in db.orders ==> Held(db.orders[o], id) == 0.0;
    SumOfZeros(HeldMap(db.orders, id));
  }

  lemma AccountsOnlyGrow(m: Storage, db: Db, db': Db)
    requires OrdersInv(m, db) && FillsInv(m, db) && PositionsInv(m, db)
    requires db' == db.(accounts := db'.accounts) && db.accounts.Keys <= db'.accounts.Keys
    ensures OrdersInv(m, db') && FillsInv(m, db') && PositionsInv(m, db')
  {
    hide OrderOk;
    hide UniqueKeys;
    hide TotalsAgree;
    hide MarkedAt;
    hide IsReplay;
    hide Stored;
    forall i | 0 <= i < |db.fills| ensures FillRowOk(m, db', db.fills[i]) {
      assert FillRowOk(m, db, db.fills[i]);
    }
  }

  lemma OpenKeepsInv(m: Storage, db: Db, id: Uuid, userId: string, cash: real)
    requires Inv(m, db)
    ensures Inv(m, OpenAccount(m, db, id, userId, cash).db)
  {
    hide OrdersInv;
    hide FillsInv;
    hide PositionsInv;
    hide LedgerInv;
    var db' := OpenAccount(m, db, id, userId, cash).db;
    if db' != db {
      var a := StoreAccount(m, Account(userId, cash, 0.0, 1));
      CleanZero(m);
      StoredIsClean(m, cash);
      NewLedgerEntry(m, db, id, a);
      AccountsOnlyGrow(m, db, db');
    }
  }

  lemma RemarkIsMarked(m: Storage, p: Position, price: real)
    requires Stored(m, price) > 0.0
    ensures MarkedAt(m, Remark(m, p, price))
  {
    hide Round8;
    var u := Unrealized(p.net, p.average, Some(price));
    if p.net != 0.0 {
      var d := Stored(m, price) - price;
      WithinScaled(m, d, p.net, 1.0);
      assert Unrealized(p.net, p.average, Some(Stored(m, price))) == u + p.net * d;
      WithinSum(m, Stored(m, u) - u, 1.0, p.net * d, Abs(p.net) * 1.0);
    } else {
      WithinWeaken(m, Stored(m, u) - u, 1.0, 1.0 + Abs(p.net));
    }
  }

  lemma TickKeepsPositions(m: Storage, db: Db, symbol: string, price: real, at: int)
    requires PositionsInv(m, db)
    ensures PositionsInv(m, ApplyTick(m, db, symbol, price, at).db)
  {
    hide MarkedAt;
    hide IsReplay;
    hide Stored;
    hide Trades;
    var db' := ApplyTick(m, db, symbol, price, at).db;
    if db' != db {
      forall k ensures BookOf(Lookup(db'.positions, k)) == BookOf(Lookup(db.positions, k)) {}
      forall k | k in db'.positions && k.symbol == symbol ensures MarkedAt(m, db'.positions[k]) {
        RemarkIsMarked(m, db.positions[k], price);
      }
      StoredIsClean(m, price);
    }
  }

  lemma TickKeepsInv(m: Storage, db: Db, symbol: string, price: real, at: int)
    requires Inv(m, db)
    ensures Inv(m, ApplyTick(m, db, symbol, price, at).db)
  {
    hide Stored;
    hide LedgerInv;
    hide OutboxInv;
    hide AuditInv;
    hide PositionsInv;
    hide OrderOk;
    hide UniqueKeys;
    hide TotalsAgree;
    var db' := ApplyTick(m, db, symbol, price, at).db;
    LogsUntouched(m, db, db');
    TickKeepsPositions(m, db, symbol, price, at);
  }

  lemma LogsUntouched(m: Storage, db: Db, db': Db)
    requires LedgerInv(m, db) && OutboxInv(db) && AuditInv(db)
    requires db'.accounts == db.accounts && db'.orders == db.orders && db'.audit == db.audit && db'.outbox == db.outbox
    ensures LedgerInv(m, db') && OutboxInv(db') && AuditInv(db')
  {
    hide IsPath;
  }

  /** Every transaction, committed or rolled back, keeps the invariant. */
  lemma StepKeepsInv(m: Storage, db: Db, c: Command)
    requires Inv(m, db) && CleanCommand(m, c)
    ensures Inv(m, Step(m, db, c).db)
  {
    hide Inv;
    hide GoodChange;
    hide Judge;
    hide OpenAccount;
    hide ApplyTick;
    hide Commit;
    match c
    case Open(id, userId, cash) => OpenKeepsInv(m, db, id, userId, cash);
    case Tick(symbol, price, at) => TickKeepsInv(m, db, symbol, price, at);
    case _ =>
      if Judge(m, c, ViewOf(db, c)).Write? {
        WriteIsGood(m, db, c);
        InvariantKept.GoodChangeKeepsInv(m, db, Judge(m, c, ViewOf(db, c)).change);
      }
  }

  predicate CleanRun(m: Storage, cs: seq<Command>) {
    forall i :: 0 <= i < |cs| ==> CleanCommand(m, cs[i])
  }

  /** The invariant holds after every run of transactions, in either form of storage. */
  lemma {:induction false} RunKeepsInv(m: Storage, db: Db, cs: seq<Command>)
    requires Inv(m, db) && CleanRun(m, cs)
    ensures Inv(m, Run(m, db, cs))
  {
    hide Inv;
    hide Step;
    if cs != [] {
      RunKeepsInv(m, db, cs[..|cs| - 1]);
      StepKeepsInv(m, Run(m, db, cs[..|cs| - 1]), cs[|cs| - 1]);
    }
  }

  // ---------- reachable states ----------

  /** The states a run passes through, one transaction at a time. */
  ghost predicate Path(m: Storage, cs: seq<Command>, dbs: seq<Db>) {
    && |dbs| == |cs| + 1
    && CleanRun(m, cs)
    && forall i :: 0 <= i < |cs| ==> dbs[i + 1] == Step(m, dbs[i], cs[i]).db
  }

  /** Some run of transactions leads from one state to the other. */
  ghost predicate Leads(m: Storage, db: Db, after: Db) {
    exists cs, dbs :: Path(m, cs, dbs) && dbs[0] == db && dbs[|cs|] == after
  }

  ghost predicate Reachable(m: Storage, db: Db) { Leads(m, EMPTY, db) }

  lemma {:induction false} PathEndsRun(m: Storage, cs: seq<Command>, dbs: seq<Db>)
    requires Path(m, cs, dbs)
    ensures dbs[|cs|] == Run(m, dbs[0], cs)
  {
    hide Step;
    if cs != [] {
      var n := |cs| - 1;
      PathEndsRun(m, cs[..n], dbs[..n + 1]);
      assert dbs[n + 1] == Step(m, dbs[n], cs[n]).db;
    }
  }

  lemma {:induction false} RunHasPath(m: Storage, db: Db, cs: seq<Command>) returns (dbs: seq<Db>)
    requires CleanRun(m, cs)
    ensures Path(m, cs, dbs) && dbs[0] == db && dbs[|cs|] == Run(m, db, cs)
  {
    hide Step;
    if cs == [] {
      dbs := [db];
    } else {
      var rest := RunHasPath(m, db, cs[..|cs| - 1]);
      dbs := rest + [Run(m, db, cs)];
    }
  }

  /** The states a state leads to are exactly the results of its runs. */
  lemma LeadsIsRun(m: Storage, db: Db, after: Db)
    ensures Leads(m, db, after) <==> exists cs :: CleanRun(m, cs) && Run(m, db, cs) == after
  {
    hide Step;
    hide CleanRun;
    if Leads(m, db, after) {
      var cs, dbs :| Path(m, cs, dbs) && dbs[0] == db && dbs[|cs|] == after;
      PathEndsRun(m, cs, dbs);
      assert CleanRun(m, cs) && Run(m, db, cs) == after;
    }
    hide Path;
    if cs :| CleanRun(m, cs) && Run(m, db, cs) == after {
      var dbs := RunHasPath(m, db, cs);
    }
  }

  /** The run that led from one state to the other. */
  lemma RunBetween(m: Storage, db: Db, after: Db) returns (cs: seq<Command>)
    requires Leads(m, db, after)
    ensures CleanRun(m, cs) && Run(m, db, cs) == after
  {
    hide Leads;
    hide Run;
    hide CleanRun;
    LeadsIsRun(m, db, after);
    cs :| CleanRun(m, cs) && Run(m, db, cs) == after;
  }

  /** The invariant holds in every reachable state, and in every state one leads to. */
  lemma ReachableInv(m: Storage, db: Db)
    requires Reachable(m, db)
    ensures Inv(m, db)
  {
    hide Inv;
    hide Run;
    hide Leads;
    EmptyInv(m);
    var cs := RunBetween(m, EMPTY, db);
    RunKeepsInv(m, EMPTY, cs);
  }
}
