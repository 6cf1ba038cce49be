/** What holds between the tables after every committed transaction. */
module Invariant {
  import opened Types
  import opened Numeric
  import opened Sums
  import opened Tables
  import opened OrderRules
  import opened PositionRules
  import opened History
  import opened Transactions

  // ---------- one order ----------

  /** The quantities each status allows. */
  predicate StatusFits(o: Order) {
    match o.status
    case New => false
    case Validated => false
    case Routed => o.filled == 0.0 && o.cancelled == 0.0
    case PartiallyFilled => o.filled > 0.0 && o.remaining > 0.0 && o.cancelled == 0.0 && !o.timeInForce.Ioc?
    case CancelPending => o.remaining > 0.0 && o.cancelled == 0.0 && (o.filled > 0.0 ==> !o.timeInForce.Ioc?)
    case Filled => o.remaining == 0.0 && o.cancelled == 0.0
    case Rejected => o.filled == 0.0 && o.cancelled == 0.0
    case Cancelled => o.remaining == 0.0 && o.cancelled > 0.0
  }

  predicate CleanOrder(m: Storage, o: Order) {
    && Clean(m, o.quantity) && Clean(m, o.price)
    && Clean(m, o.filled) && Clean(m, o.cancelled) && Clean(m, o.remaining)
    && (o.average.Some? ==> Clean(m, o.average.value))
  }

  predicate OrderOk(m: Storage, o: Order) {
    && OrderChecks(o)
    && StatusFits(o)
    && CleanOrder(m, o)
    && (o.average.None? <==> o.filled == 0.0)
  }

  ghost predicate OrdersInv(m: Storage, db: Db) {
    && (forall id :: id in db.orders ==> OrderOk(m, db.orders[id]) && db.orders[id].accountId in db.accounts)
    && UniqueKeys(db.orders)
  }

  // ---------- the audit log ----------

  ghost predicate AuditInv(db: Db) {
    forall id :: if id in db.orders then IsPath(EventsOf(db.audit, id), db.orders[id].status) else EventsOf(db.audit, id) == []
  }

  // ---------- fills ----------

  /** The order's totals against its fill rows; the average is off by at most one half-unit per fill. */
  predicate TotalsAgree(m: Storage, o: Order, fs: seq<Fill>) {
    && o.filled == QuantityOf(fs)
    && Within(m, ValueFilled(o) - ValueOf(fs), Weight(|fs|, o.filled))
  }

  predicate FillRowOk(m: Storage, db: Db, f: Fill) {
    && FillChecks(f)
    && Clean(m, f.quantity)
    && f.orderId in db.orders
    && f.eventId in db.processed
    && db.processed[f.eventId].orderId == f.orderId
    && db.processed[f.eventId].applied
  }

  ghost predicate FillsInv(m: Storage, db: Db) {
    && (forall i :: 0 <= i < |db.fills| ==> FillRowOk(m, db, db.fills[i]))
    && (forall i, j :: 0 <= i < j < |db.fills| ==>
          db.fills[i].eventId != db.fills[j].eventId && db.fills[i].executionId != db.fills[j].executionId)
    && (forall id :: id in db.orders ==> TotalsAgree(m, db.orders[id], FillsOf(db.fills, id)))
  }

  // ---------- the reservation ledger ----------

  /** The cash an order holds in an account. */
  function Held(o: Order, a: Uuid): real {
    if o.accountId == a && o.side.Buy? && Working(o.status) then RemainingNotional(o) else 0.0
  }

  ghost function HeldMap(orders: map<Uuid, Order>, a: Uuid): map<Uuid, real> {
    map id | id in orders :: Held(orders[id], a)
  }

  /** The sum of remaining quantity times price over the account's open buy orders. */
  ghost function HeldBy(orders: map<Uuid, Order>, a: Uuid): real { Sum(HeldMap(orders, a)) }

  ghost function Drift(db: Db, a: Uuid): real
    requires a in db.accounts
  {
    db.accounts[a].reserved - HeldBy(db.orders, a)
  }

  ghost predicate LedgerInv(m: Storage, db: Db) {
    forall a :: a in db.accounts ==>
      && AccountChecks(db.accounts[a])
      && Clean(m, db.accounts[a].cash) && Clean(m, db.accounts[a].reserved)
      && db.accounts[a].version >= 1
      && Within(m, Drift(db, a), (db.accounts[a].version - 1) as real)
  }

  // ---------- positions ----------

  /** The position row is the replay of its trades. */
  ghost predicate IsReplay(m: Storage, b: Book, ts: seq<Trade>) { AllValid(ts) && b == Replay(m, ts) }

  /** The stored unrealized profit belongs to the stored mark. */
  predicate MarkedAt(m: Storage, p: Position) {
    && p.mark.Some?
    && p.mark.value > 0.0
    && Within(m, p.unrealized - Unrealized(p.net, p.average, p.mark), 1.0 + Abs(p.net))
  }

  ghost predicate PositionsInv(m: Storage, db: Db) {
    && (forall k :: IsReplay(m, BookOf(Lookup(db.positions, k)), Trades(db.orders, db.fills, k)))
    && (forall k :: k in db.positions ==>
          && k.accountId in db.accounts
          && MarkedAt(m, db.positions[k])
          && (k.symbol in db.quotes ==> db.positions[k].mark == Some(db.quotes[k.symbol].price)))
    && (forall s :: s in db.quotes ==> db.quotes[s].price > 0.0 && Clean(m, db.quotes[s].price))
  }

  // ---------- the broker outbox ----------

  predicate Uncancelled(s: Status) { s.Routed? || s.PartiallyFilled? }

  predicate CallsFit(es: seq<AuditEvent>, o: Order, submits: nat, cancels: nat) {
    && submits == CountKind(es, OrderRouted) <= 1
    && cancels == CountKind(es, CancelRequested) <= 1
    && (Uncancelled(o.status) ==> cancels == 0)
    && (o.status.CancelPending? ==> cancels == 1)
    && (Working(o.status) || o.filled > 0.0 || o.cancelled > 0.0 ==> submits == 1)
  }

  ghost predicate OutboxInv(db: Db) {
    forall id ::
      if id in db.orders then
        CallsFit(EventsOf(db.audit, id), db.orders[id], Submits(db.outbox, id), Cancels(db.outbox, id))
      else Submits(db.outbox, id) == 0 && Cancels(db.outbox, id) == 0
  }

  ghost predicate ProcessedInv(db: Db) {
    forall e :: e in db.processed ==> db.processed[e].orderId in db.orders
  }

  ghost predicate Inv(m: Storage, db: Db) {
    && OrdersInv(m, db)
    && AuditInv(db)
    && FillsInv(m, db)
    && LedgerInv(m, db)
    && PositionsInv(m, db)
    && OutboxInv(db)
    && ProcessedInv(db)
  }

  lemma EmptyInv(m: Storage)
    ensures Inv(m, EMPTY)
  {
  }

  lemma OrderOf(m: Storage, db: Db, id: Uuid)
    requires Inv(m, db) && id in db.orders
    ensures OrderOk(m, db.orders[id])
  {
    hide OrderOk;
    hide AuditInv;
    hide FillsInv;
    hide LedgerInv;
    hide PositionsInv;
    hide OutboxInv;
  }

  // ---------- what a change must look like ----------

  ghost predicate OrderPart(m: Storage, db: Db, c: Change) {
    var o := StoreOrder(m, c.order);
    && OrderOk(m, o)
    && o == c.order.(average := o.average)
    && o.accountId in db.accounts
    && if c.orderId in db.orders then SameIdentity(db.orders[c.orderId], o)
       else forall i :: i in db.orders && db.orders[i].accountId == o.accountId ==>
              db.orders[i].idempotencyKey != o.idempotencyKey && db.orders[i].clientOrderId != o.clientOrderId
  }

  predicate AuditPart(db: Db, c: Change) {
    IsTail(c.audit, c.orderId, if c.orderId in db.orders then Some(db.orders[c.orderId].status) else None, c.order.status)
  }

  predicate ProcessedPart(db: Db, c: Change) {
    c.processed.Some? ==> c.processed.value.0 !in db.processed && c.processed.value.1.orderId == c.orderId
  }

  function HeldBefore(db: Db, c: Change): real {
    if c.orderId in db.orders then Held(db.orders[c.orderId], c.order.accountId) else 0.0
  }

  /** The cash a change pays into a position. */
  function CashFlow(c: Change): real {
    if c.fill.None? then 0.0 else AsTrade(c.order, c.fill.value).Flow()
  }

  predicate LedgerPart(m: Storage, db: Db, c: Change) {
    var held := Held(StoreOrder(m, c.order), c.order.accountId) - HeldBefore(db, c);
    && c.order.accountId in db.accounts
    && match c.account
       case None => held == 0.0 && c.fill.None?
       case Some(a) =>
         var row := db.accounts[c.order.accountId];
         && AccountChecks(StoreAccount(m, a))
         && a.version > row.version
         && a.userId == row.userId
         && row.cash - a.cash == CashFlow(c)
         && a.reserved - row.reserved == held
  }

  predicate FillPart(m: Storage, db: Db, c: Change) {
    var o := StoreOrder(m, c.order);
    match c.fill
    case None =>
      && c.position.None?
      && if c.orderId in db.orders then o.filled == db.orders[c.orderId].filled && o.average == db.orders[c.orderId].average
         else o.filled == 0.0 && o.average.None?
    case Some(f) =>
      && StoreFill(m, f) == f && FillChecks(f)
      && f.orderId == c.orderId && c.orderId in db.orders
      && FillIsFresh(db.fills, f.eventId, f.executionId)
      && c.processed.Some? && c.processed.value.0 == f.eventId && c.processed.value.1.applied
      && o.filled == db.orders[c.orderId].filled + f.quantity
      && Within(m, ValueFilled(o) - ValueFilled(db.orders[c.orderId]) - Notional(f.quantity, f.price), o.filled)
  }

  predicate PositionPart(m: Storage, db: Db, c: Change) {
    c.fill.Some? ==>
      && c.fill.value.quantity > 0.0
      && c.position == Some(Execute(Lookup(db.positions, c.order.Key()), MarkOf(db.quotes, c.order.symbol), AsTrade(c.order, c.fill.value)))
  }

  predicate OutboxPart(db: Db, c: Change) {
    var id := c.orderId;
    && (c.outbox == [] || (|c.outbox| == 1 && (IsSubmit(c.outbox[0], id) || IsCancel(c.outbox[0], id))))
    && CountKind(c.audit, OrderRouted) == (if c.outbox != [] && IsSubmit(c.outbox[0], id) then 1 else 0)
    && CountKind(c.audit, CancelRequested) == (if c.outbox != [] && IsCancel(c.outbox[0], id) then 1 else 0)
    && if id in db.orders then
         var o := db.orders[id];
         && (c.outbox != [] ==> IsCancel(c.outbox[0], id) && Uncancelled(o.status) && c.order.status.CancelPending?)
         && (c.outbox == [] && Uncancelled(c.order.status) ==> Uncancelled(o.status))
         && (c.outbox == [] && c.order.status.CancelPending? ==> o.status.CancelPending?)
         && (Working(c.order.status) || c.order.filled > 0.0 || c.order.cancelled > 0.0 ==>
               Working(o.status) || o.filled > 0.0 || o.cancelled > 0.0)
       else
         && (c.outbox != [] ==> IsSubmit(c.outbox[0], id) && c.order.status.Routed?)
         && (c.outbox == [] ==> c.order.status.Rejected?)
         && c.order.filled == 0.0 && c.order.cancelled == 0.0
  }

  ghost predicate GoodChange(m: Storage, db: Db, c: Change) {
    && OrderPart(m, db, c)
    && AuditPart(db, c)
    && ProcessedPart(db, c)
    && LedgerPart(m, db, c)
    && FillPart(m, db, c)
    && PositionPart(m, db, c)
    && OutboxPart(db, c)
  }

  lemma GoodParts(m: Storage, db: Db, c: Change)
    requires GoodChange(m, db, c)
    ensures OrderPart(m, db, c) && AuditPart(db, c) && ProcessedPart(db, c) && LedgerPart(m, db, c)
    ensures FillPart(m, db, c) && PositionPart(m, db, c) && OutboxPart(db, c)
  {
    hide OrderPart;
    hide AuditPart;
    hide ProcessedPart;
    hide LedgerPart;
    hide FillPart;
    hide PositionPart;
    hide OutboxPart;
  }
}
