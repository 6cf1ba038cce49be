/**
 * When transactions fail, in either form of storage: for every path that releases or spends reserved
 * cash, the exact condition on the rows it reads. Exact storage always meets the conditions on the
 * reservation; rounded storage meets them while the account's drift is not negative.
 */
module Guards {
  import opened Types
  import opened Numeric
  import opened Sums
  import opened Tables
  import opened OrderRules
  import opened PositionRules
  import opened History
  import opened Transactions
  import opened Invariant
  import opened Steps

  /** What event validation guarantees before the service sees an event. */
  predicate WellFormed(e: BrokerEvent) {
    IsFill(e) ==>
      && e.quantity > 0.0
      && e.price.Some? && e.price.value > 0.0
      && e.executionId.Some? && e.executionId.value != ""
  }

  /** The account has reserved at least what the order holds. */
  ghost predicate Backed(db: Db, id: Uuid) {
    && id in db.orders
    && db.orders[id].accountId in db.accounts
    && Held(db.orders[id], db.orders[id].accountId) <= db.accounts[db.orders[id].accountId].reserved
  }

  /** While rounding has not left an account short, each order's own holding is part of the reserved cash. */
  lemma HoldingIsReserved(m: Storage, db: Db, id: Uuid)
    requires Inv(m, db) && id in db.orders
    requires db.orders[id].accountId in db.accounts && Drift(db, db.orders[id].accountId) >= 0.0
    ensures Held(db.orders[id], db.orders[id].accountId) >= 0.0 && Backed(db, id)
  {
    hide AuditInv;
    hide FillsInv;
    hide PositionsInv;
    hide OutboxInv;
    hide LedgerInv;
    hide UniqueKeys;
    hide Stored;
    var a := db.orders[id].accountId;
    var held := HeldMap(db.orders, a);
    forall i | i in held ensures held[i] >= 0.0 {
      assert OrderOk(m, db.orders[i]);
      HeldNonNegative(db.orders[i], a);
    }
    SumNonNegative(held);
    assert held[id] == Held(db.orders[id], a);
  }

  /** Exact storage never leaves an account short. */
  lemma ExactIsBacked(db: Db, id: Uuid)
    requires Inv(Exact, db) && id in db.orders
    ensures Backed(db, id)
  {
    hide Inv;
    AccountIsKnown(Exact, db, id);
    assert Drift(db, db.orders[id].accountId) == 0.0 by {
      ExactDrift(db, db.orders[id].accountId);
    }
    HoldingIsReserved(Exact, db, id);
  }

  lemma ExactDrift(db: Db, a: Uuid)
    requires Inv(Exact, db) && a in db.accounts
    ensures Drift(db, a) == 0.0
  {
    hide AuditInv;
    hide FillsInv;
    hide PositionsInv;
    hide OutboxInv;
    hide OrdersInv;
    hide Drift;
  }

  /** What an order says about its own row and its account's. */
  lemma AccountIsKnown(m: Storage, db: Db, id: Uuid)
    requires Inv(m, db) && id in db.orders
    ensures OrderOk(m, db.orders[id])
    ensures db.orders[id].accountId in db.accounts && AccountChecks(db.accounts[db.orders[id].accountId])
    ensures Clean(m, db.accounts[db.orders[id].accountId].cash) && Clean(m, db.accounts[db.orders[id].accountId].reserved)
  {
    hide OrderOk;
    hide AuditInv;
    hide FillsInv;
    hide PositionsInv;
    hide OutboxInv;
    hide UniqueKeys;
    hide Drift;
    hide Stored;
    OrderOf(m, db, id);
  }

  /** Money that fits the checks still fits them once it is stored. */
  lemma StoringKeepsChecks(m: Storage, a: Account)
    requires AccountChecks(a)
    ensures AccountChecks(StoreAccount(m, a))
  {
    StoredMonotone(m, a.reserved, a.cash);
    StoredSign(m, a.reserved);
    StoredSign(m, a.cash);
    hide Stored;
  }

  lemma HeldNonNegative(o: Order, a: Uuid)
    requires OrderChecks(o)
    ensures Held(o, a) >= 0.0
  {
  }

  lemma {:induction false} ReplayAverage(m: Storage, ts: seq<Trade>)
    requires AllValid(ts)
    ensures Replay(m, ts).average >= 0.0
  {
    hide AfterFill;
    if ts != [] {
      var b := Replay(m, ts[..|ts| - 1]);
      ReplayAverage(m, ts[..|ts| - 1]);
      FillKeepsAverage(b, ts[|ts| - 1]);
      StoredSign(m, AfterFill(b, ts[|ts| - 1]).average);
      hide Stored;
    }
  }

  lemma FillKeepsAverage(b: Book, t: Trade)
    requires b.average >= 0.0 && t.Valid()
    ensures AfterFill(b, t).average >= 0.0
  {
    var s := t.Signed();
    if b.net == 0.0 || b.net * s > 0.0 {
      SameDirectionGrows(b.net, s);
      var cost := Abs(b.net) * b.average + Abs(s) * t.price;
      assert cost >= 0.0;
      QuotientNonNegative(cost, Abs(b.net + s));
    }
  }

  /** Executing a valid trade leaves a position the table accepts, in either form of storage. */
  lemma ExecutePassesChecks(m: Storage, db: Db, k: PositionKey, t: Trade)
    requires Inv(m, db) && t.Valid() && Clean(m, t.price)
    ensures PositionChecks(StorePosition(m, Execute(Lookup(db.positions, k), MarkOf(db.quotes, k.symbol), t)))
  {
    hide AuditInv;
    hide FillsInv;
    hide OrdersInv;
    hide LedgerInv;
    hide OutboxInv;
    hide AfterFill;
    hide MarkedAt;
    hide Round8;
    var ts := Trades(db.orders, db.fills, k);
    ReplayAverage(m, ts);
    FillKeepsAverage(BookOf(Lookup(db.positions, k)), t);
    StoredSign(m, AfterFill(BookOf(Lookup(db.positions, k)), t).average);
  }

  /** The order row a fill leaves passes its table's checks, with or without an IOC remainder cancelled. */
  lemma FilledPassesChecks(m: Storage, o: Order, q: real, p: real)
    requires OrderOk(m, o) && Working(o.status) && 0.0 < q <= o.remaining && Clean(m, q)
    ensures o.filled + q > 0.0
    ensures OrderChecks(StoreOrder(m, WithFill(o, q, p)))
    ensures OrderChecks(StoreOrder(m, CancelledOrder(WithFill(o, q, p))))
  {
    hide Stored;
    FilledRow(m, o, q, p);
    var o1 := WithFill(o, q, p);
    CleanSum(m, o.cancelled, o1.remaining);
    CleanZero(m);
    hide ValueFilled;
  }

  // ---------- fills ----------

  /** The account side of a fill: settled and, for an IOC remainder, released. */
  predicate Pays(m: Storage, a: Account, o: Order, q: real, p: real)
    requires o.filled + q != 0.0
  {
    && Settle(a, o, q, p).Some?
    && AccountChecks(StoreAccount(m, Settle(a, o, q, p).value))
    && FillAccount(a, o, q, p).Some?
    && AccountChecks(StoreAccount(m, FillAccount(a, o, q, p).value))
  }

  /** What a fill takes out of the reservation: its own share, or everything when the rest is cancelled. */
  function Released(o: Order, q: real): real {
    if o.timeInForce.Ioc? && q != o.remaining then RemainingNotional(o) else Notional(q, o.price)
  }

  /** A buy's release is reserved, its cost is in cash, and the reservation left fits the cash left. */
  predicate Covers(m: Storage, a: Account, o: Order, q: real, p: real) {
    o.side.Buy? ==>
      && Released(o, q) <= a.reserved
      && Notional(q, p) <= a.cash
      && Stored(m, a.reserved - Notional(q, o.price)) <= Stored(m, a.cash - Notional(q, p))
  }

  /** The reservation of an order splits into the filled share and the rest. */
  lemma FillNotionals(m: Storage, o: Order, q: real, p: real)
    requires OrderOk(m, o) && Working(o.status) && 0.0 < q <= o.remaining && p > 0.0
    ensures var o1 := WithFill(o, q, p);
      && o1.side == o.side && o1.remaining == o.remaining - q
      && Notional(q, p) > 0.0 && Notional(q, o.price) > 0.0 && RemainingNotional(o1) >= 0.0
      && RemainingNotional(o) == Notional(q, o.price) + RemainingNotional(o1)
    ensures o.side.Buy? ==> Held(o, o.accountId) == RemainingNotional(o)
    ensures p <= o.price ==> Notional(q, p) <= Notional(q, o.price)
  {
    SignOfProduct(q, p);
    SignOfProduct(q, o.price);
    SignOfProduct(o.remaining - q, o.price);
    SignOfProduct(q, o.price - p);
    assert q * (o.price - p) == Notional(q, o.price) - Notional(q, p);
    assert (o.remaining - q) * o.price == RemainingNotional(o) - Notional(q, o.price);
  }

  lemma FillVerdictIff(m: Storage, e: BrokerEvent, v: View)
    requires v.order.Some? && WellFormed(e) && IsFill(e) && v.fillFresh && v.account.Some?
    requires FillChecks(StoreFill(m, Fill(e.orderId, e.eventId, ExecutionKey(e), e.quantity, e.price.value)))
    requires var o, q, p := v.order.value, e.quantity, e.price.value;
      && o.filled + q != 0.0
      && OrderChecks(StoreOrder(m, WithFill(o, q, p)))
      && OrderChecks(StoreOrder(m, CancelledOrder(WithFill(o, q, p))))
      && PositionChecks(StorePosition(m, Execute(v.position, v.mark, Trade(o.side, q, p))))
    ensures FillVerdict(m, e, v).Write? <==> Pays(m, v.account.value, v.order.value, e.quantity, e.price.value)
    ensures !FillVerdict(m, e, v).Keep?
  {
    hide Execute;
    hide OrderChecks;
    hide PositionChecks;
    hide WithFill;
    hide Release;
    hide Settle;
    hide StoreOrder;
    hide StorePosition;
    hide StoreFill;
    hide Stored;
  }

  lemma BuyPaysIff(m: Storage, a: Account, o: Order, q: real, p: real)
    requires o.side.Buy? && o.filled + q != 0.0
    requires 0.0 < Notional(q, o.price) <= RemainingNotional(o) && RemainingNotional(o) - Notional(q, o.price) >= 0.0
    requires var o1 := WithFill(o, q, p);
      && o1.side == o.side && o1.remaining == o.remaining - q && o1.price == o.price
      && RemainingNotional(o1) == RemainingNotional(o) - Notional(q, o.price)
      && (RemainingNotional(o1) > 0.0 <==> o1.remaining > 0.0) && o1.remaining >= 0.0
    ensures Pays(m, a, o, q, p) <==> Covers(m, a, o, q, p)
  {
    StoredSign(m, a.reserved - Notional(q, o.price));
    StoredSign(m, a.cash - Notional(q, p));
    StoredSign(m, a.reserved - RemainingNotional(o));
    StoredMonotone(m, a.reserved - RemainingNotional(o), a.reserved - Notional(q, o.price));
    hide WithFill;
    hide Notional;
    hide RemainingNotional;
    hide Stored;
  }

  lemma SellPays(m: Storage, a: Account, o: Order, q: real, p: real)
    requires o.side.Sell? && o.filled + q != 0.0 && AccountChecks(a) && Notional(q, p) > 0.0
    requires WithFill(o, q, p).side == o.side
    ensures Pays(m, a, o, q, p)
  {
    StoringKeepsChecks(m, Settle(a, o, q, p).value);
    hide WithFill;
    hide Notional;
    hide StoreAccount;
  }

  lemma RestIsWorthSomething(o: Order)
    requires o.price > 0.0 && o.remaining >= 0.0
    ensures RemainingNotional(o) > 0.0 <==> o.remaining > 0.0
  {
    SignOfProduct(o.remaining, o.price);
  }

  lemma PaysIff(m: Storage, a: Account, o: Order, q: real, p: real)
    requires OrderOk(m, o) && Working(o.status) && 0.0 < q <= o.remaining && p > 0.0 && AccountChecks(a)
    ensures o.filled + q != 0.0
    ensures Pays(m, a, o, q, p) <==> Covers(m, a, o, q, p)
  {
    FillNotionals(m, o, q, p);
    ClosedChecks(m, o);
    if o.side.Sell? {
      SellPays(m, a, o, q, p);
    } else {
      RestIsWorthSomething(WithFill(o, q, p));
      hide Notional;
      hide RemainingNotional;
      BuyPaysIff(m, a, o, q, p);
    }
    hide OrderOk;
    hide Pays;
    hide Held;
  }

  /**
   * In either form of storage, a fill that passes the guard commits if and only if the account covers it:
   * no other check, on any table, can refuse it.
   */
  lemma FillCommitsIff(m: Storage, db: Db, e: BrokerEvent)
    requires Inv(m, db) && IsFill(e) && WellFormed(e) && CleanCommand(m, Handle(e))
    requires e.orderId in db.orders && e.eventId !in db.processed
    requires GuardFill(db.orders[e.orderId], e).Take? && FillIsFresh(db.fills, e.eventId, ExecutionKey(e))
    ensures var o := db.orders[e.orderId];
      && o.accountId in db.accounts
      && (HandleVerdict(m, e, ViewOf(db, Handle(e))).Write? <==>
          Covers(m, db.accounts[o.accountId], o, e.quantity, e.price.value))
    ensures Step(m, db, Handle(e)).outcome.Ok? <==> HandleVerdict(m, e, ViewOf(db, Handle(e))).Write?
  {
    hide Inv;
    hide Execute;
    hide FillIsFresh;
    hide Stored;
    hide FillVerdict;
    hide Pays;
    var o, q, p := db.orders[e.orderId], e.quantity, e.price.value;
    AccountIsKnown(m, db, e.orderId);
    FilledPassesChecks(m, o, q, p);
    ExecutePassesChecks(m, db, o.Key(), Trade(o.side, q, p));
    PaysIff(m, db.accounts[o.accountId], o, q, p);
    hide OrderOk;
    hide PositionChecks;
    hide OrderChecks;
    hide AccountChecks;
    hide Covers;
    FillVerdictIff(m, e, ViewOf(db, Handle(e)));
  }

  /**
   * A fill without a price or with a non-positive quantity for a working order raises, and neither the
   * order's log nor the event records say that it came; every other new event for a known order that does
   * not take effect is recorded as ignored.
   */
  lemma NoEffectIsRecordedIff(m: Storage, db: Db, e: BrokerEvent)
    requires e.orderId in db.orders && e.eventId !in db.processed && !TakesEffect(db.orders[e.orderId], e)
    ensures var o, r := db.orders[e.orderId], Step(m, db, Handle(e));
      if IsFill(e) && GuardFill(o, e).Malformed? then r == Result(db, Fail(InvalidFill))
      else
        && r.outcome == Ok(Applied(false))
        && r.db.audit == db.audit + [Link(e.orderId, BrokerEventIgnored, o.status, o.status)]
        && r.db.processed == db.processed[e.eventId := Processed(e.orderId, e.kind, false)]
  {
    hide FillVerdict;
    hide CloseVerdict;
    hide Stored;
  }

  /** At or below the limit, only the reservation matters. */
  lemma CoversWithinLimit(m: Storage, a: Account, o: Order, q: real, p: real)
    requires OrderOk(m, o) && Working(o.status) && 0.0 < q <= o.remaining && p > 0.0 && AccountChecks(a)
    requires o.side.Buy? ==> p <= o.price
    ensures Covers(m, a, o, q, p) <==> (o.side.Buy? ==> Released(o, q) <= a.reserved)
  {
    FillNotionals(m, o, q, p);
    if o.side.Buy? {
      StoredMonotone(m, a.reserved - Notional(q, o.price), a.cash - Notional(q, p));
    }
    hide OrderOk;
    hide Notional;
    hide Stored;
  }

  /**
   * In either form of storage, a fill that passes the guard at or below the limit commits if and only if
   * what it takes out of the reservation is still reserved.
   */
  lemma WithinLimitFillCommitsIff(m: Storage, db: Db, e: BrokerEvent)
    requires Inv(m, db) && IsFill(e) && WellFormed(e) && CleanCommand(m, Handle(e))
    requires e.orderId in db.orders && e.eventId !in db.processed
    requires GuardFill(db.orders[e.orderId], e).Take? && FillIsFresh(db.fills, e.eventId, ExecutionKey(e))
    requires db.orders[e.orderId].side.Buy? ==> e.price.value <= db.orders[e.orderId].price
    ensures var o := db.orders[e.orderId];
      && o.accountId in db.accounts
      && (Step(m, db, Handle(e)).outcome.Ok? <==>
          (o.side.Buy? ==> Released(o, e.quantity) <= db.accounts[o.accountId].reserved))
  {
    hide Inv;
    hide Step;
    hide FillIsFresh;
    hide FillVerdict;
    AccountIsKnown(m, db, e.orderId);
    FillCommitsIff(m, db, e);
    var o := db.orders[e.orderId];
    CoversWithinLimit(m, db.accounts[o.accountId], o, e.quantity, e.price.value);
    hide Covers;
    hide Released;
  }

  /** What a buy fill costs beyond the cash it had reserved. */
  function Excess(o: Order, q: real, p: real): real { if o.side.Buy? then Notional(q, p) - Notional(q, o.price) else 0.0 }

  /** In exact storage the account covers a fill if and only if its free cash covers the price above the limit. */
  lemma ExactFillCommitsIff(db: Db, e: BrokerEvent)
    requires Inv(Exact, db) && IsFill(e) && WellFormed(e)
    requires e.orderId in db.orders && e.eventId !in db.processed
    requires GuardFill(db.orders[e.orderId], e).Take? && FillIsFresh(db.fills, e.eventId, ExecutionKey(e))
    ensures var o := db.orders[e.orderId];
      && o.accountId in db.accounts
      && (Step(Exact, db, Handle(e)).outcome.Ok? <==>
          Excess(o, e.quantity, e.price.value) <= db.accounts[o.accountId].Available())
  {
    hide Inv;
    hide Step;
    hide FillIsFresh;
    hide FillVerdict;
    var o, q, p := db.orders[e.orderId], e.quantity, e.price.value;
    AccountIsKnown(Exact, db, e.orderId);
    assert CleanCommand(Exact, Handle(e));
    FillCommitsIff(Exact, db, e);
    ExactIsBacked(db, e.orderId);
    FillNotionals(Exact, o, q, p);
    hide OrderOk;
    hide Held;
    hide WithFill;
    hide Notional;
  }

  /** A backed order's fill at or below the limit is always applied. */
  lemma BackedFillCommits(m: Storage, db: Db, e: BrokerEvent)
    requires Inv(m, db) && IsFill(e) && WellFormed(e) && CleanCommand(m, Handle(e))
    requires e.eventId !in db.processed && Backed(db, e.orderId)
    requires GuardFill(db.orders[e.orderId], e).Take? && FillIsFresh(db.fills, e.eventId, ExecutionKey(e))
    requires db.orders[e.orderId].side.Buy? ==> e.price.value <= db.orders[e.orderId].price
    ensures HandleVerdict(m, e, ViewOf(db, Handle(e))).Write?
    ensures Step(m, db, Handle(e)).outcome == Ok(Applied(true))
  {
    hide Inv;
    hide FillIsFresh;
    hide FillVerdict;
    var o, q, p := db.orders[e.orderId], e.quantity, e.price.value;
    AccountIsKnown(m, db, e.orderId);
    FillNotionals(m, o, q, p);
    WithinLimitFillCommitsIff(m, db, e);
    FillCommitsIff(m, db, e);
    FillAnswers(m, e, ViewOf(db, Handle(e)));
    hide OrderOk;
    hide Notional;
  }

  lemma FillAnswers(m: Storage, e: BrokerEvent, v: View)
    requires v.order.Some? && WellFormed(e) && IsFill(e) && FillVerdict(m, e, v).Write?
    ensures FillVerdict(m, e, v).answer == Applied(true)
  {
    hide Execute;
    hide AccountChecks;
    hide OrderChecks;
    hide PositionChecks;
    hide Stored;
  }

  /** In either form of storage, fills at or below the limit never lower the account's free cash. */
  lemma FillsNeverLowerAvailable(m: Storage, db: Db, e: BrokerEvent, a: Uuid)
    requires Inv(m, db) && a in db.accounts && Fillable(m, db, e) && WellFormed(e)
    requires db.orders[e.orderId].side.Buy? ==> e.price.value <= db.orders[e.orderId].price
    ensures var db' := Step(m, db, Handle(e)).db;
      a in db'.accounts && db'.accounts[a].Available() >= db.accounts[a].Available()
  {
    hide Inv;
    hide FillVerdict;
    hide Execute;
    hide FillAccount;
    hide AccountChecks;
    hide FillOutcome;
    hide Stored;
    var o, q, p := db.orders[e.orderId], e.quantity, e.price.value;
    AccountIsKnown(m, db, e.orderId);
    FillWrites(m, e, ViewOf(db, Handle(e)));
    AvailableAfterFill(m, db.accounts[o.accountId], o, q, p);
    FillKeepsAccount(o, q, p);
    hide OrderOk;
  }

  lemma FillKeepsAccount(o: Order, q: real, p: real)
    requires o.filled + q != 0.0
    ensures FillOutcome(o, q, p).accountId == o.accountId
  {
  }

  lemma AvailableAfterFill(m: Storage, a: Account, o: Order, q: real, p: real)
    requires OrderOk(m, o) && Working(o.status) && 0.0 < q <= o.remaining && p > 0.0
    requires o.side.Buy? ==> p <= o.price
    requires AccountChecks(a) && Clean(m, a.cash) && Clean(m, a.reserved)
    requires FillAccount(a, o, q, p).Some?
    ensures StoreAccount(m, FillAccount(a, o, q, p).value).Available() >= a.Available()
  {
    FillNotionals(m, o, q, p);
    var b := FillAccount(a, o, q, p).value;
    assert b.Available() >= a.Available() && b.reserved >= 0.0 by {
      hide OrderOk;
      hide Held;
      hide WithFill;
      hide Notional;
      hide Stored;
    }
    CleanSum(m, a.cash, a.reserved);
    StoredShift(m, b.reserved, a.Available());
    StoredMonotone(m, b.reserved + a.Available(), b.cash);
    hide FillAccount;
    hide OrderOk;
    hide Stored;
  }

  // ---------- rejections and cancellations ----------

  /** The order a rejection or cancellation that takes effect leaves. */
  function ClosedBy(o: Order, e: BrokerEvent): Order {
    if e.kind.Reject? then RejectedOrder(o, ReasonOr(e, "Rejected by broker")) else CancelledOrder(o)
  }

  lemma ClosedChecks(m: Storage, o: Order)
    requires OrderOk(m, o)
    ensures OrderChecks(o) && o.price > 0.0
  {
  }

  /**
   * In either form of storage, a new rejection or cancellation that takes effect commits if and only if
   * the account still has reserved what a buy order gives back; otherwise it raises.
   */
  lemma ClosingCommitsIff(m: Storage, db: Db, e: BrokerEvent)
    requires Inv(m, db) && !IsFill(e) && e.orderId in db.orders && e.eventId !in db.processed
    requires TakesEffect(db.orders[e.orderId], e)
    ensures var o := db.orders[e.orderId];
      && o.accountId in db.accounts
      && (Step(m, db, Handle(e)).outcome == if HoldsCash(o) && RemainingNotional(o) > db.accounts[o.accountId].reserved
          then Fail(InvalidFill) else Ok(Applied(true)))
  {
    hide Inv;
    hide Stored;
    hide OrderChecks;
    var o := db.orders[e.orderId];
    AccountIsKnown(m, db, e.orderId);
    var a := db.accounts[o.accountId];
    ClosedRow(m, o, ClosedBy(o, e));
    ClosedChecks(m, ClosedBy(o, e));
    if HoldsCash(o) && RemainingNotional(o) <= a.reserved {
      NonNegativeProduct(o.remaining, o.price);
      StoringKeepsChecks(m, Unreserve(a, RemainingNotional(o)));
    }
    hide OrderOk;
    hide StoreOrder;
    hide StoreAccount;
    hide AccountChecks;
    hide Notional;
  }

  lemma CloseWritesOrRaises(m: Storage, e: BrokerEvent, v: View, kind: AuditKind)
    requires v.order.Some? && !v.duplicate && TakesEffect(v.order.value, e) && !IsFill(e)
    requires kind == if e.kind.Reject? then OrderRejected else OrderCancelled
    ensures HandleVerdict(m, e, v) == CloseVerdict(m, e, v, ClosedBy(v.order.value, e), kind)
    ensures !HandleVerdict(m, e, v).Keep?
  {
    hide Stored;
    hide AccountChecks;
    hide OrderChecks;
    hide Release;
  }

  lemma NoteVerdict(m: Storage, e: BrokerEvent, v: View)
    requires v.order.Some? && !v.duplicate && !TakesEffect(v.order.value, e) && WellFormed(e)
    ensures HandleVerdict(m, e, v) == IgnoreVerdict(e, v.order.value)
  {
    hide FillVerdict;
    hide CloseVerdict;
    hide IgnoreVerdict;
  }

  lemma HoldsWhatItGivesBack(m: Storage, o: Order)
    requires OrderOk(m, o) && Working(o.status)
    ensures Held(o, o.accountId) == if HoldsCash(o) then RemainingNotional(o) else 0.0
    ensures HoldsCash(o) <==> o.side.Buy?
  {
    hide Stored;
  }

  /**
   * In either form of storage, a broker event for a known, backed order never raises when it is
   * well-formed, its execution is new and a buy executes at or below the limit: it is applied exactly when
   * it takes effect, ignored with an audit entry otherwise, or a duplicate.
   */
  lemma KnownEventsNeverFail(m: Storage, db: Db, e: BrokerEvent)
    requires Inv(m, db) && WellFormed(e) && CleanCommand(m, Handle(e)) && Backed(db, e.orderId)
    requires e.eventId in db.processed || !IsFill(e) || FillIsFresh(db.fills, e.eventId, ExecutionKey(e))
    requires IsFill(e) && db.orders[e.orderId].side.Buy? ==> e.price.value <= db.orders[e.orderId].price
    ensures Step(m, db, Handle(e)).outcome ==
      Ok(Applied(e.eventId !in db.processed && TakesEffect(db.orders[e.orderId], e)))
  {
    hide Inv;
    hide Backed;
    hide FillVerdict;
    hide CloseVerdict;
    hide FillIsFresh;
    hide Commit;
    BackedHolds(db, e.orderId);
    var o := db.orders[e.orderId];
    if e.eventId !in db.processed && TakesEffect(o, e) {
      if IsFill(e) {
        BackedFillCommits(m, db, e);
      } else {
        ClosingCommitsIff(m, db, e);
        AccountIsKnown(m, db, e.orderId);
        HoldsWhatItGivesBack(m, o);
      }
      hide TakesEffect;
    }
  }

  lemma BackedHolds(db: Db, id: Uuid)
    requires Backed(db, id)
    ensures id in db.orders && db.orders[id].accountId in db.accounts
    ensures Held(db.orders[id], db.orders[id].accountId) <= db.accounts[db.orders[id].accountId].reserved
  {
  }

  // ---------- submissions ----------

  /**
   * In either form of storage, recording a failed submission commits unless the order is still routed and
   * the unguarded subtraction is stored as a negative reservation.
   */
  lemma RoutingFailureCommitsIff(m: Storage, db: Db, id: Uuid, reason: string)
    requires Inv(m, db) && id in db.orders && db.orders[id].status.Routed?
    ensures var o := db.orders[id];
      && o.accountId in db.accounts
      && (Step(m, db, RoutingFailed(id, reason)).outcome ==
          if o.side.Buy? && Stored(m, db.accounts[o.accountId].reserved - RemainingNotional(o)) < 0.0
          then Fail(ConstraintViolation) else Ok(Done))
  {
    hide Inv;
    AccountIsKnown(m, db, id);
    var o := db.orders[id];
    var a := db.accounts[o.accountId];
    NonNegativeProduct(o.remaining, o.price);
    StoredMonotone(m, a.reserved - RemainingNotional(o), a.cash);
    StoredSign(m, a.cash);
    hide OrderOk;
    hide Stored;
    hide StoreOrder;
    hide Notional;
  }

  /** A backed order's failed submission is always recorded; so is one whose order is no longer routed. */
  lemma RoutingFailureNeverFails(m: Storage, db: Db, id: Uuid, reason: string)
    requires Inv(m, db) && (id in db.orders && db.orders[id].status.Routed? ==> Backed(db, id))
    ensures Step(m, db, RoutingFailed(id, reason)).outcome == Ok(Done)
  {
    hide Inv;
    if id in db.orders && db.orders[id].status.Routed? {
      AccountIsKnown(m, db, id);
      RoutingFailureCommitsIff(m, db, id, reason);
      HoldsWhatItGivesBack(m, db.orders[id]);
      StoredSign(m, db.accounts[db.orders[id].accountId].reserved - RemainingNotional(db.orders[id]));
      hide Step;
    }
    hide Stored;
    hide OrderOk;
    hide Notional;
  }

  /**
   * In either form of storage, a new order for a known account is accepted or recorded as rejected; it
   * fails only as a duplicate.
   */
  lemma PlacementNeverBreaksConstraints(m: Storage, db: Db, c: Command)
    requires Inv(m, db) && c.Place? && CleanCommand(m, c) && c.payload.quantity > 0.0 && c.payload.price > 0.0
    requires c.payload.accountId in db.accounts && c.orderId !in db.orders
    ensures var r := Step(m, db, c); r.outcome.Ok? || r.outcome == Fail(DuplicateOrder)
  {
    hide Inv;
    var a, o := db.accounts[c.payload.accountId], NewOrder(c.payload, c.expiry);
    AccountRowOk(m, db, c.payload.accountId);
    NewOrderIsClean(m, c.payload, c.expiry);
    StoreKeepsOrder(m, o);
    NonNegativeProduct(c.payload.quantity, c.payload.price);
    if RequiredBuyingPower(o.side, o.quantity, o.price) <= a.Available() {
      StoringKeepsChecks(m, Reserve(a, o));
    }
    hide Stored;
    hide StoreOrder;
    hide StoreAccount;
    hide MatchesRequest;
    hide UniqueKeys;
    hide FindByKey;
    hide ClientIdTaken;
    hide Commit;
  }

  lemma AccountRowOk(m: Storage, db: Db, a: Uuid)
    requires Inv(m, db) && a in db.accounts
    ensures AccountChecks(db.accounts[a]) && Clean(m, db.accounts[a].cash) && Clean(m, db.accounts[a].reserved)
  {
    hide AuditInv;
    hide FillsInv;
    hide PositionsInv;
    hide OutboxInv;
    hide OrdersInv;
    hide Drift;
    hide Stored;
  }
}
