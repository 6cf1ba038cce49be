/**
 * The system end to end: clients, the simulated broker with its random choices and delays, the event
 * queue and the single worker that takes events from it in order.
 */
module SimulatedBroker {
  import opened Types
  import opened Numeric
  import opened Tables
  import opened OrderRules
  import opened PositionRules
  import opened Transactions
  import opened Invariant
  import opened Steps
  import opened Guards
  import opened Money

  // ---------- the broker's arithmetic ----------

  const QUANTITY_STEP := 0.00000001

  /** Rounding toward zero to eight decimals. */
  function RoundDown8(x: real): real {
    if x < 0.0 then -((-x * 100000000.0).Floor as real / 100000000.0) else (x * 100000000.0).Floor as real / 100000000.0
  }

  function PartialQuantity(remaining: real, ratio: real): real {
    var quantity := RoundDown8(Notional(remaining, ratio));
    if quantity <= 0.0 then remaining
    else if quantity >= remaining then
      (if remaining - QUANTITY_STEP >= QUANTITY_STEP then remaining - QUANTITY_STEP else QUANTITY_STEP)
    else quantity
  }

  lemma RoundDownBounds(x: real)
    requires x >= 0.0
    ensures x - QUANTITY_STEP < RoundDown8(x) <= x && RoundDown8(x) >= 0.0
    ensures RoundDown8(x) == 0.0 <==> x < QUANTITY_STEP
    ensures IsUnits(RoundDown8(x), (x * 100000000.0).Floor)
  {
    var units := (x * 100000000.0).Floor;
    assert RoundDown8(x) * 100000000.0 == units as real;
    assert units as real <= x * 100000000.0 < units as real + 1.0;
    assert units >= 0;
  }

  lemma ShareIsPart(remaining: real, ratio: real)
    requires remaining > 0.0 && 0.0 < ratio < 1.0
    ensures 0.0 < Notional(remaining, ratio) < remaining
  {
    PositiveProduct(remaining, ratio);
    PositiveProduct(remaining, 1.0 - ratio);
    assert Notional(remaining, 1.0 - ratio) == remaining - Notional(remaining, ratio);
    hide Notional;
  }

  lemma PositiveProduct(x: real, y: real)
    requires x > 0.0 && y > 0.0
    ensures Notional(x, y) > 0.0
  {
    SignOfProduct(x, y);
  }

  /**
   * For every draw between 0.25 and 0.75 a partial fill is positive and within what remains, it takes
   * everything only when the drawn share is below one step, and whole steps stay whole steps.
   */
  lemma PartialQuantityFits(remaining: real, ratio: real, n: int)
    requires remaining > 0.0 && 0.25 <= ratio <= 0.75
    ensures var q := PartialQuantity(remaining, ratio);
      && 0.0 < q <= remaining
      && (q == remaining <==> Notional(remaining, ratio) < QUANTITY_STEP)
      && (q != remaining ==> Notional(remaining, ratio) - QUANTITY_STEP < q <= Notional(remaining, ratio))
      && (IsUnits(remaining, n) ==> exists k: int :: IsUnits(q, k))
  {
    ShareIsPart(remaining, ratio);
    var share := Notional(remaining, ratio);
    RoundDownBounds(share);
    hide RoundDown8;
    hide Notional;
    assert IsUnits(remaining, n) ==>
      IsUnits(PartialQuantity(remaining, ratio), if share < QUANTITY_STEP then n else (share * 100000000.0).Floor);
  }

  // ---------- the system ----------

  /** A background task of the broker: an order to work, the rest of a partial fill, or a cancellation. */
  datatype Task =
    | Simulation(order: BrokerOrder)
    | Remainder(order: BrokerOrder, quantity: real)
    | Cancellation(orderId: Uuid, reason: string)
  {
    function OrderId(): Uuid { if Cancellation? then orderId else order.orderId }
  }

  datatype System = System(db: Db, tasks: map<nat, Task>, nextTask: nat, queue: seq<BrokerEvent>)

  const START := System(EMPTY, map[], 0, [])

  /** What the broker's random generator decides when an order's simulation wakes up. */
  datatype Draw = DrawReject | DrawFull | DrawPartial(ratio: real, more: bool)

  predicate InRange(d: Draw) { d.DrawPartial? ==> 0.25 <= d.ratio <= 0.75 }

  datatype Turn =
    | Client(command: Command)
    | Wake(task: nat, draw: Draw, eventId: Uuid, executionId: string)
    | Work
    | Shutdown

  function FullFillEvent(order: BrokerOrder, quantity: real, eventId: Uuid, executionId: string): BrokerEvent {
    BrokerEvent(eventId, FullFill, order.orderId, quantity, Some(order.price), Some(executionId), None)
  }

  /** The event a waking task puts on the queue. */
  function Emitted(t: Task, d: Draw, eventId: Uuid, executionId: string): BrokerEvent {
    match t
    case Simulation(order) =>
      (match d
       case DrawReject => BrokerEvent(eventId, Reject, order.orderId, 0.0, None, None, Some("Rejected by simulated broker"))
       case DrawFull => FullFillEvent(order, order.remaining, eventId, executionId)
       case DrawPartial(ratio, _) =>
         BrokerEvent(eventId, PartialFill, order.orderId, PartialQuantity(order.remaining, ratio), Some(order.price),
                     Some(executionId), None))
    case Remainder(order, quantity) => FullFillEvent(order, quantity, eventId, executionId)
    case Cancellation(orderId, reason) => BrokerEvent(eventId, Cancel, orderId, 0.0, None, None, Some(reason))
  }

  /** What is left of a broker task after it has put its event. */
  function Continuation(t: Task, d: Draw): Option<Task> {
    if t.Simulation? && d.DrawPartial? && !t.order.timeInForce.Ioc? then
      var rest := t.order.remaining - PartialQuantity(t.order.remaining, d.ratio);
      if rest > 0.0 && d.more then Some(Remainder(t.order, rest)) else None
    else None
  }

  function TaskFor(call: Outbound): Task {
    match call
    case Submit(order) => Simulation(order)
    case CancelAtBroker(id, reason) => Cancellation(id, reason)
  }

  /** Every call made to the broker starts a task. */
  function Spawn(tasks: map<nat, Task>, next: nat, calls: seq<Outbound>): map<nat, Task>
    decreases |calls|
  {
    if calls == [] then tasks else Spawn(tasks[next := TaskFor(calls[0])], next + 1, calls[1..])
  }

  /** Identifiers the broker generates have never been used before. */
  predicate FreshIds(s: System, eventId: Uuid, executionId: string) {
    && eventId !in s.db.processed
    && executionId != ""
    && FillIsFresh(s.db.fills, eventId, executionId) && FillIsFresh(s.db.fills, eventId, eventId)
    && forall i :: 0 <= i < |s.queue| ==>
         && s.queue[i].eventId != eventId
         && ExecutionKey(s.queue[i]) != executionId && ExecutionKey(s.queue[i]) != eventId
  }

  /** The calls a client's transaction makes to the broker once it has committed. */
  ghost function CallsOf(m: Storage, db: Db, c: Command): seq<Outbound> {
    if OnOneOrder(c) && Judge(m, c, ViewOf(db, c)).Write? then Judge(m, c, ViewOf(db, c)).change.outbox else []
  }

  /**
   * One turn of the system. Clients may create orders, ask for cancellations (so may the expiry scan, at
   * any moment) and open accounts, and ticks may arrive; any task may wake up at any moment; the worker
   * takes the oldest event, and drops it when its transaction fails; shutting down cancels every task and
   * leaves the queue to the worker.
   */
  ghost function TakeTurn(m: Storage, s: System, t: Turn): System {
    match t
    case Client(c) =>
      if c.Handle? || c.RoutingFailed? then s
      else
        var calls := CallsOf(m, s.db, c);
        System(Step(m, s.db, c).db, Spawn(s.tasks, s.nextTask, calls), s.nextTask + |calls|, s.queue)
    case Wake(k, d, eventId, executionId) =>
      if k !in s.tasks || !InRange(d) || !FreshIds(s, eventId, executionId) then s
      else
        var more := Continuation(s.tasks[k], d);
        s.(tasks := if more.Some? then s.tasks[k := more.value] else s.tasks - {k},
           queue := s.queue + [Emitted(s.tasks[k], d, eventId, executionId)])
    case Work =>
      if s.queue == [] then s else s.(db := Step(m, s.db, Handle(s.queue[0])).db, queue := s.queue[1..])
    case Shutdown => s.(tasks := map[])
  }

  ghost function Evolve(m: Storage, turns: seq<Turn>): System {
    if turns == [] then START else TakeTurn(m, Evolve(m, turns[..|turns| - 1]), turns[|turns| - 1])
  }

  /**
   * What a waking task does: one event on the queue, for the quantity it still had to fill or a part of it, at
   * the order's price. Only a partial fill of a resting order that leaves something can be followed by another
   * event, and that one is for exactly the rest.
   */
  lemma WakeAnswered(m: Storage, s: System, k: nat, d: Draw, eventId: Uuid, executionId: string)
    requires k in s.tasks && InRange(d) && FreshIds(s, eventId, executionId)
    ensures var s', t := TakeTurn(m, s, Wake(k, d, eventId, executionId)), s.tasks[k];
      && s'.db == s.db && s'.nextTask == s.nextTask
      && |s'.queue| == |s.queue| + 1 && s'.queue[..|s.queue|] == s.queue
      && var e := s'.queue[|s.queue|];
         match t
         case Cancellation(id, reason) =>
           e == BrokerEvent(eventId, Cancel, id, 0.0, None, None, Some(reason)) && s'.tasks == s.tasks - {k}
         case Remainder(order, rest) =>
           && e == BrokerEvent(eventId, FullFill, order.orderId, rest, Some(order.price), Some(executionId), None)
           && s'.tasks == s.tasks - {k}
         case Simulation(order) =>
           match d
           case DrawReject =>
             && e == BrokerEvent(eventId, Reject, order.orderId, 0.0, None, None, Some("Rejected by simulated broker"))
             && s'.tasks == s.tasks - {k}
           case DrawFull =>
             && e == BrokerEvent(eventId, FullFill, order.orderId, order.remaining, Some(order.price), Some(executionId), None)
             && s'.tasks == s.tasks - {k}
           case DrawPartial(ratio, more) =>
             && e == BrokerEvent(eventId, PartialFill, order.orderId, e.quantity, Some(order.price), Some(executionId), None)
             && (order.remaining > 0.0 ==>
                   && 0.0 < e.quantity <= order.remaining
                   && (e.quantity == order.remaining || order.remaining * ratio - QUANTITY_STEP < e.quantity <= order.remaining * ratio))
             && s'.tasks == if more && order.timeInForce != Ioc && e.quantity < order.remaining
                            then s.tasks[k := Remainder(order, order.remaining - e.quantity)] else s.tasks - {k}
  {
    hide FreshIds;
    var t := s.tasks[k];
    if t.Simulation? && d.DrawPartial? && t.order.remaining > 0.0 {
      PartialQuantityFits(t.order.remaining, d.ratio, 0);
    }
    hide PartialQuantity;
  }

  // ---------- amounts that are stored as they are ----------

  predicate IsWhole(x: real) { x == x.Floor as real }

  /** Any stored quantity at the price is worth an amount that is stored as it is; exact storage asks for nothing. */
  predicate WholePrice(m: Storage, price: real) { m.Exact? || IsWhole(price) }

  lemma WholeShare(m: Storage, quantity: real, price: real)
    requires Clean(m, quantity) && WholePrice(m, price)
    ensures Clean(m, Notional(quantity, price))
  {
    if m.Scale8? {
      CleanIsWhole(quantity);
      var n: int :| IsUnits(quantity, n);
      assert quantity * price * 100000000.0 == (quantity * 100000000.0) * price;
      assert n as real * price == (n * price.Floor) as real;
      assert IsUnits(Notional(quantity, price), n * price.Floor);
      CleanIsWhole(Notional(quantity, price));
    }
  }

  /** Clients' quantities and prices are stored as they are, and buys are priced in whole units when storage rounds. */
  predicate GoodTurn(m: Storage, t: Turn) {
    t.Client? ==>
      && CleanCommand(m, t.command)
      && (t.command.Place? && t.command.payload.side.Buy? ==> WholePrice(m, t.command.payload.price))
  }

  predicate GoodTurns(m: Storage, turns: seq<Turn>) { forall i :: 0 <= i < |turns| ==> GoodTurn(m, turns[i]) }

  predicate CleanTurns(m: Storage, turns: seq<Turn>) {
    forall i :: 0 <= i < |turns| && turns[i].Client? ==> CleanCommand(m, turns[i].command)
  }

  predicate WholePrices(m: Storage, orders: map<Uuid, Order>) {
    forall id :: id in orders && orders[id].side.Buy? ==> WholePrice(m, orders[id].price)
  }

  /** No account has drifted, and no order can make one drift. */
  ghost predicate LedgerExact(m: Storage, db: Db) {
    && WholePrices(m, db.orders)
    && forall a :: a in db.accounts ==> Drift(db, a) == 0.0
  }

  // ---------- what the broker still intends to fill ----------

  datatype Claim = Claim(full: bool, quantity: real)

  predicate FillFor(e: BrokerEvent, id: Uuid) { IsFill(e) && e.orderId == id }

  function ClaimOf(e: BrokerEvent): Claim { Claim(e.kind.FullFill?, e.quantity) }

  /** The fills of one order on the queue, oldest first. */
  function Claims(queue: seq<BrokerEvent>, id: Uuid): seq<Claim> {
    if queue == [] then []
    else (if FillFor(queue[0], id) then [ClaimOf(queue[0])] else []) + Claims(queue[1..], id)
  }

  /** Taken in order, every claim fits what the ones before it leave; a full fill takes exactly the rest. */
  predicate Fits(cs: seq<Claim>, left: real) {
    cs == [] ||
    (&& 0.0 < cs[0].quantity <= left
     && (cs[0].full ==> cs[0].quantity == left)
     && Fits(cs[1..], left - cs[0].quantity))
  }

  predicate Works(t: Task, id: Uuid) { !t.Cancellation? && t.order.orderId == id }

  /** The claims of the queue together with what one task will still claim. */
  predicate Planned(t: Task, claims: seq<Claim>, o: Order) {
    && !t.Cancellation?
    && if t.Simulation? then claims == [] && t.order.remaining == o.remaining
       else Fits(claims + [Claim(true, t.quantity)], o.remaining) && !o.timeInForce.Ioc?
  }

  /** What the broker intends for a working order is exactly what the order can take. */
  ghost predicate PlanOk(s: System, id: Uuid)
    requires id in s.db.orders
  {
    var o, claims := s.db.orders[id], Claims(s.queue, id);
    Working(o.status) ==>
      && Fits(claims, o.remaining)
      && (o.timeInForce.Ioc? ==> |claims| <= 1)
      && (forall k :: k in s.tasks && Works(s.tasks[k], id) ==> Planned(s.tasks[k], claims, o))
  }

  /** A task works with the identity of its order. */
  predicate TaskOk(m: Storage, db: Db, t: Task) {
    && t.OrderId() in db.orders
    && (!t.Cancellation? ==>
          && t.order.price == db.orders[t.OrderId()].price
          && t.order.timeInForce == db.orders[t.OrderId()].timeInForce
          && t.order.price > 0.0 && Clean(m, t.order.price)
          && t.order.remaining > 0.0 && Clean(m, t.order.remaining))
    && (t.Remainder? ==> t.quantity > 0.0 && Clean(m, t.quantity))
  }

  ghost predicate TasksOk(m: Storage, s: System) {
    && (forall k :: k in s.tasks ==> k < s.nextTask && TaskOk(m, s.db, s.tasks[k]))
    && (forall j, k :: j in s.tasks && k in s.tasks && j != k && !s.tasks[j].Cancellation? && !s.tasks[k].Cancellation? ==>
          s.tasks[j].OrderId() != s.tasks[k].OrderId())
  }

  /** One event waiting for the worker: new to the database, valid, and priced at the order's limit. */
  predicate EventOk(m: Storage, db: Db, e: BrokerEvent) {
    && e.orderId in db.orders
    && WellFormed(e) && CleanCommand(m, Handle(e))
    && e.eventId !in db.processed
    && FillIsFresh(db.fills, e.eventId, ExecutionKey(e))
    && (IsFill(e) ==> e.price == Some(db.orders[e.orderId].price))
  }

  ghost predicate QueueOk(m: Storage, s: System) {
    && (forall i :: 0 <= i < |s.queue| ==> EventOk(m, s.db, s.queue[i]))
    && (forall i, j :: 0 <= i < j < |s.queue| ==>
          s.queue[i].eventId != s.queue[j].eventId && ExecutionKey(s.queue[i]) != ExecutionKey(s.queue[j]))
  }

  /** The worker's next transaction, if there is an event to take, does not raise. */
  ghost predicate Undropped(m: Storage, s: System) {
    s.queue != [] ==> Step(m, s.db, Handle(s.queue[0])).outcome.Ok?
  }

  ghost predicate SystemOk(m: Storage, s: System) {
    && Inv(m, s.db)
    && TasksOk(m, s)
    && QueueOk(m, s)
    && forall id :: id in s.db.orders ==> PlanOk(s, id)
  }

  // ---------- claims ----------

  function ClaimsOf(e: BrokerEvent, id: Uuid): seq<Claim> { if FillFor(e, id) then [ClaimOf(e)] else [] }

  lemma ClaimsHead(queue: seq<BrokerEvent>, id: Uuid)
    requires queue != []
    ensures Claims(queue, id) == ClaimsOf(queue[0], id) + Claims(queue[1..], id)
  {
  }

  lemma {:induction false} ClaimsAppend(queue: seq<BrokerEvent>, e: BrokerEvent, id: Uuid)
    ensures Claims(queue + [e], id) == Claims(queue, id) + ClaimsOf(e, id)
  {
    ClaimsHead(queue + [e], id);
    if queue == [] {
      assert queue + [e] == [e] && [e][1..] == [];
    } else {
      var rest := queue[1..];
      assert (queue + [e])[1..] == rest + [e] && (queue + [e])[0] == queue[0];
      ClaimsHead(queue, id);
      ClaimsAppend(rest, e, id);
      hide Claims;
      hide ClaimsOf;
      SameJoin(ClaimsOf(queue[0], id), Claims(rest, id), ClaimsOf(e, id));
    }
  }

  lemma SameJoin(a: seq<Claim>, b: seq<Claim>, c: seq<Claim>)
    ensures a + (b + c) == (a + b) + c
  {
  }

  lemma {:induction false} NoClaims(queue: seq<BrokerEvent>, id: Uuid)
    requires forall i :: 0 <= i < |queue| ==> queue[i].orderId != id
    ensures Claims(queue, id) == []
  {
    if queue != [] {
      NoClaims(queue[1..], id);
    }
  }

  /** Splitting the last claim: a partial fill followed by a full fill of the rest. */
  lemma PartialThenFull(q: real, left: real)
    requires 0.0 < q < left
    ensures Fits([Claim(false, q), Claim(true, left - q)], left)
  {
    var cs := [Claim(false, q), Claim(true, left - q)];
    assert cs[1..] == [Claim(true, left - q)];
    assert cs[1..][1..] == [];
  }

  lemma FitsOne(full: bool, q: real, left: real)
    requires 0.0 < q <= left && (full ==> q == left)
    ensures Fits([Claim(full, q)], left)
  {
    assert [Claim(full, q)][1..] == [];
  }

  // ---------- one event handled by the worker ----------

  /** The order's row after the event. */
  function OrderAfter(m: Storage, o: Order, e: BrokerEvent): Order
    requires WellFormed(e) && o.filled >= 0.0
  {
    if !TakesEffect(o, e) then o
    else if IsFill(e) then StoreOrder(m, FillOutcome(o, e.quantity, e.price.value))
    else ClosedBy(o, e)
  }

  /** What a handled event leaves of everything the broker depends on. */
  ghost predicate Handled(m: Storage, db: Db, e: BrokerEvent, r: Result)
    requires e.orderId in db.orders && WellFormed(e) && db.orders[e.orderId].filled >= 0.0
  {
    && r.outcome == Ok(Applied(TakesEffect(db.orders[e.orderId], e)))
    && r.db.orders == db.orders[e.orderId := OrderAfter(m, db.orders[e.orderId], e)]
    && r.db.processed.Keys == db.processed.Keys + {e.eventId}
    && (r.db.fills == db.fills ||
        (|r.db.fills| == |db.fills| + 1 && db.fills == r.db.fills[..|db.fills|]
         && r.db.fills[|db.fills|].eventId == e.eventId && r.db.fills[|db.fills|].executionId == ExecutionKey(e)))
  }

  /** Without drift every order is backed, so no queued event raises. */
  lemma NothingRaises(m: Storage, db: Db, e: BrokerEvent)
    requires Inv(m, db) && LedgerExact(m, db) && EventOk(m, db, e)
    ensures Step(m, db, Handle(e)).outcome.Ok?
  {
    hide Inv;
    hide Step;
    hide WholePrices;
    hide FillIsFresh;
    hide Drift;
    hide Backed;
    hide Stored;
    AccountIsKnown(m, db, e.orderId);
    HoldingIsReserved(m, db, e.orderId);
    KnownEventsNeverFail(m, db, e);
    hide OrderOk;
  }

  lemma FillHandled(m: Storage, db: Db, e: BrokerEvent)
    requires Inv(m, db) && EventOk(m, db, e) && IsFill(e) && Step(m, db, Handle(e)).outcome.Ok?
    requires GuardFill(db.orders[e.orderId], e).Take?
    ensures db.orders[e.orderId].filled >= 0.0
    ensures Handled(m, db, e, Step(m, db, Handle(e)))
  {
    hide Inv;
    hide FillVerdict;
    hide FillIsFresh;
    hide Execute;
    hide AccountChecks;
    hide FillAccount;
    hide Stored;
    OrderOf(m, db, e.orderId);
    FillCommitsIff(m, db, e);
    FillWrites(m, e, ViewOf(db, Handle(e)));
    FillAnswers(m, e, ViewOf(db, Handle(e)));
    hide FillOutcome;
    hide OrderOk;
    hide StoreOrder;
    hide Covers;
  }

  lemma CloseHandled(m: Storage, db: Db, e: BrokerEvent)
    requires Inv(m, db) && EventOk(m, db, e) && !IsFill(e) && TakesEffect(db.orders[e.orderId], e)
    requires Step(m, db, Handle(e)).outcome.Ok?
    ensures db.orders[e.orderId].filled >= 0.0
    ensures Handled(m, db, e, Step(m, db, Handle(e)))
  {
    hide Inv;
    hide CloseVerdict;
    hide FillIsFresh;
    hide AccountChecks;
    hide Stored;
    var o, v := db.orders[e.orderId], ViewOf(db, Handle(e));
    OrderOf(m, db, e.orderId);
    ClosingCommitsIff(m, db, e);
    ClosedRow(m, o, ClosedBy(o, e));
    hide OrderOk;
    hide StoreOrder;
    hide Held;
    hide RemainingNotional;
    var kind := if e.kind.Reject? then OrderRejected else OrderCancelled;
    CloseWritesOrRaises(m, e, v, kind);
    CloseWrites(m, e, v, ClosedBy(o, e), kind);
  }

  lemma IgnoredHandled(m: Storage, db: Db, e: BrokerEvent)
    requires Inv(m, db) && EventOk(m, db, e) && !TakesEffect(db.orders[e.orderId], e)
    ensures db.orders[e.orderId].filled >= 0.0
    ensures Handled(m, db, e, Step(m, db, Handle(e)))
  {
    hide Inv;
    hide FillIsFresh;
    hide Stored;
    hide HandleVerdict;
    OrderOf(m, db, e.orderId);
    StoreKeepsOrder(m, db.orders[e.orderId]);
    NoteVerdict(m, e, ViewOf(db, Handle(e)));
    hide TakesEffect;
    hide WellFormed;
    hide OrderOk;
    hide StoreOrder;
  }

  /** The worker's transaction on a queued event, unless it raises, does to the order what OrderAfter says. */
  lemma EventHandled(m: Storage, db: Db, e: BrokerEvent)
    requires Inv(m, db) && EventOk(m, db, e) && Step(m, db, Handle(e)).outcome.Ok?
    ensures db.orders[e.orderId].filled >= 0.0
    ensures Handled(m, db, e, Step(m, db, Handle(e)))
  {
    hide Inv;
    hide Handled;
    hide Step;
    hide FillIsFresh;
    hide Stored;
    OrderOf(m, db, e.orderId);
    if !TakesEffect(db.orders[e.orderId], e) {
      IgnoredHandled(m, db, e);
    } else if IsFill(e) {
      FillHandled(m, db, e);
    } else {
      CloseHandled(m, db, e);
    }
  }

  // ---------- the worker's turn ----------

  /** The parts of an order the broker relies on, after one event. */
  lemma AfterEvent(m: Storage, o: Order, e: BrokerEvent)
    requires OrderOk(m, o) && WellFormed(e) && CleanCommand(m, Handle(e))
    ensures var o' := OrderAfter(m, o, e);
      && o'.price == o.price && o'.side == o.side && o'.timeInForce == o.timeInForce
      && (Working(o'.status) ==>
            && Working(o.status)
            && o'.remaining == o.remaining - (if IsFill(e) && TakesEffect(o, e) then e.quantity else 0.0)
            && (IsFill(e) && TakesEffect(o, e) ==> !o.timeInForce.Ioc?))
  {
    if IsFill(e) && TakesEffect(o, e) {
      FillOutcomeRow(m, o, e.quantity, e.price.value);
    }
    hide Stored;
    hide Within;
    hide ValueFilled;
  }

  /** A claim at the head of the queue is one the guard takes. */
  lemma ClaimIsTaken(m: Storage, s: System, e: BrokerEvent)
    requires SystemOk(m, s) && s.queue != [] && e == s.queue[0] && IsFill(e) && Working(s.db.orders[e.orderId].status)
    ensures Claims(s.queue, e.orderId) == [ClaimOf(e)] + Claims(s.queue[1..], e.orderId)
    ensures TakesEffect(s.db.orders[e.orderId], e)
  {
    hide Inv;
    hide FillIsFresh;
    hide TasksOk;
    hide Planned;
    assert EventOk(m, s.db, s.queue[0]);
    assert PlanOk(s, e.orderId);
  }

  lemma WorkKeepsQueue(m: Storage, s: System)
    requires SystemOk(m, s) && s.queue != [] && Undropped(m, s)
    ensures QueueOk(m, TakeTurn(m, s, Work))
  {
    hide Inv;
    hide Step;
    hide PlanOk;
    hide TasksOk;
    var e := s.queue[0];
    assert EventOk(m, s.db, s.queue[0]);
    EventHandled(m, s.db, e);
    OrderOf(m, s.db, e.orderId);
    AfterEvent(m, s.db.orders[e.orderId], e);
    var s' := TakeTurn(m, s, Work);
    forall i | 0 <= i < |s'.queue| ensures EventOk(m, s'.db, s'.queue[i]) {
      assert s'.queue[i] == s.queue[i + 1];
      StillWaiting(m, s.db, s'.db, e, s.queue[i + 1]);
    }
  }

  /** Handling one event leaves every other waiting event new and valid. */
  lemma StillWaiting(m: Storage, db: Db, after: Db, e: BrokerEvent, f: BrokerEvent)
    requires EventOk(m, db, e) && EventOk(m, db, f) && f.eventId != e.eventId && ExecutionKey(f) != ExecutionKey(e)
    requires db.orders[e.orderId].filled >= 0.0
    requires Handled(m, db, e, Result(after, Ok(Applied(TakesEffect(db.orders[e.orderId], e)))))
    requires OrderAfter(m, db.orders[e.orderId], e).price == db.orders[e.orderId].price
    ensures EventOk(m, after, f)
  {
    hide OrderAfter;
    hide TakesEffect;
    hide ExecutionKey;
    assert f.eventId !in after.processed.Keys;
    forall i | 0 <= i < |after.fills|
      ensures after.fills[i].eventId != f.eventId && after.fills[i].executionId != ExecutionKey(f)
    {
      if i < |db.fills| {
        assert after.fills[i] == db.fills[i];
      }
    }
  }

  lemma PlannedAfterClaim(t: Task, claims: seq<Claim>, c: Claim, o: Order, o': Order)
    requires Planned(t, [c] + claims, o)
    requires o'.timeInForce == o.timeInForce && o'.remaining == o.remaining - c.quantity
    ensures Planned(t, claims, o')
  {
    var all := [c] + claims + [Claim(true, if t.Remainder? then t.quantity else 0.0)];
    assert all[1..] == claims + [Claim(true, if t.Remainder? then t.quantity else 0.0)];
    assert [c] + claims != [];
  }

  lemma WorkKeepsPlan(m: Storage, s: System, id: Uuid)
    requires SystemOk(m, s) && s.queue != [] && Undropped(m, s) && id in s.db.orders
    ensures id in TakeTurn(m, s, Work).db.orders && PlanOk(TakeTurn(m, s, Work), id)
  {
    hide Inv;
    hide Step;
    hide QueueOk;
    hide TasksOk;
    hide Fits;
    hide FillIsFresh;
    hide OrderAfter;
    hide TakesEffect;
    var e := s.queue[0];
    assert EventOk(m, s.db, e) by { HeadOk(m, s); }
    EventHandled(m, s.db, e);
    OrderOf(m, s.db, e.orderId);
    AfterEvent(m, s.db.orders[e.orderId], e);
    assert PlanOk(s, id);
    var o, o' := s.db.orders[id], TakeTurn(m, s, Work).db.orders[id];
    if FillFor(e, id) && Working(o'.status) {
      ClaimIsTaken(m, s, e);
      var rest := Claims(s.queue[1..], id);
      FitsTail(ClaimOf(e), rest, o.remaining);
      forall k | k in s.tasks && Works(s.tasks[k], id) ensures Planned(s.tasks[k], rest, o') {
        PlannedAfterClaim(s.tasks[k], rest, ClaimOf(e), o, o');
      }
    } else if Working(o'.status) {
      assert Claims(s.queue, id) == Claims(s.queue[1..], id);
      assert Working(o.status) && o'.remaining == o.remaining;
    }
  }

  lemma HeadOk(m: Storage, s: System)
    requires QueueOk(m, s) && s.queue != []
    ensures EventOk(m, s.db, s.queue[0])
  {
  }

  lemma FitsTail(c: Claim, rest: seq<Claim>, left: real)
    requires Fits([c] + rest, left)
    ensures Fits(rest, left - c.quantity)
  {
    assert ([c] + rest)[1..] == rest;
  }

  lemma WorkKeepsTasks(m: Storage, s: System)
    requires SystemOk(m, s) && s.queue != [] && Undropped(m, s)
    ensures TasksOk(m, TakeTurn(m, s, Work))
  {
    hide Inv;
    hide Step;
    hide QueueOk;
    hide PlanOk;
    hide EventOk;
    hide OrderAfter;
    var e := s.queue[0];
    HeadOk(m, s);
    EventHandled(m, s.db, e);
    assert e.orderId in s.db.orders && WellFormed(e) by { EventFacts(m, s.db, e); }
    OrderOf(m, s.db, e.orderId);
    AfterEvent(m, s.db.orders[e.orderId], e);
  }

  lemma EventFacts(m: Storage, db: Db, e: BrokerEvent)
    requires EventOk(m, db, e)
    ensures e.orderId in db.orders && WellFormed(e) && CleanCommand(m, Handle(e))
  {
  }

  lemma WorkKeepsLedger(m: Storage, s: System)
    requires SystemOk(m, s) && LedgerExact(m, s.db) && s.queue != [] && Undropped(m, s)
    ensures var after := TakeTurn(m, s, Work).db; Inv(m, after) && LedgerExact(m, after)
  {
    hide Inv;
    hide Step;
    hide QueueOk;
    hide PlanOk;
    hide TasksOk;
    hide EventOk;
    hide OrderAfter;
    hide WholePrice;
    hide Drift;
    var e := s.queue[0];
    HeadOk(m, s);
    EventHandled(m, s.db, e);
    EventFacts(m, s.db, e);
    OrderOf(m, s.db, e.orderId);
    AfterEvent(m, s.db.orders[e.orderId], e);
    hide CleanCommand;
    hide OrderOk;
    LedgerStays(m, s.db, Handle(e));
  }

  lemma WorkKeepsInv(m: Storage, s: System)
    requires SystemOk(m, s) && s.queue != []
    ensures Inv(m, TakeTurn(m, s, Work).db)
  {
    hide Inv;
    hide Step;
    hide QueueOk;
    hide PlanOk;
    hide TasksOk;
    hide EventOk;
    hide CleanCommand;
    HeadOk(m, s);
    EventFacts(m, s.db, s.queue[0]);
    StepKeepsInv(m, s.db, Handle(s.queue[0]));
  }

  lemma WorkKeepsSystem(m: Storage, s: System)
    requires SystemOk(m, s) && Undropped(m, s)
    ensures SystemOk(m, TakeTurn(m, s, Work))
  {
    hide Inv;
    hide Step;
    hide QueueOk;
    hide PlanOk;
    hide TasksOk;
    if s.queue != [] {
      var s' := TakeTurn(m, s, Work);
      WorkKeepsInv(m, s);
      WorkKeepsQueue(m, s);
      WorkKeepsTasks(m, s);
      SameOrderKeys(m, s);
      forall id | id in s'.db.orders ensures PlanOk(s', id) {
        WorkKeepsPlan(m, s, id);
      }
    }
  }

  lemma SameOrderKeys(m: Storage, s: System)
    requires SystemOk(m, s) && s.queue != [] && Undropped(m, s)
    ensures TakeTurn(m, s, Work).db.orders.Keys == s.db.orders.Keys
  {
    hide Inv;
    hide LedgerExact;
    hide Step;
    hide PlanOk;
    hide TasksOk;
    hide OrderAfter;
    hide FillIsFresh;
    hide CleanCommand;
    HeadOk(m, s);
    EventHandled(m, s.db, s.queue[0]);
  }

  // ---------- a task wakes up ----------

  /** The fill a task emits, and what it still plans, are what the order can take. */
  lemma EmittedFits(t: Task, d: Draw, eventId: Uuid, executionId: string, claims: seq<Claim>, o: Order)
    requires Planned(t, claims, o) && Fits(claims, o.remaining) && o.remaining > 0.0
    requires InRange(d) && t.order.timeInForce == o.timeInForce
    requires o.timeInForce.Ioc? ==> |claims| <= 1
    ensures var e := Emitted(t, d, eventId, executionId);
      var after := if IsFill(e) then claims + [ClaimOf(e)] else claims;
      && Fits(after, o.remaining)
      && (o.timeInForce.Ioc? ==> |after| <= 1)
      && (Continuation(t, d).Some? ==> Planned(Continuation(t, d).value, after, o))
  {
    if t.Simulation? && !d.DrawReject? {
      var left := o.remaining;
      assert claims == [];
      if d.DrawPartial? {
        PartialQuantityFits(left, d.ratio, 0);
        hide PartialQuantity;
        var q := PartialQuantity(left, d.ratio);
        FitsOne(false, q, left);
        assert claims + [Claim(false, q)] == [Claim(false, q)];
        if q < left {
          PartialThenFull(q, left);
          assert [Claim(false, q)] + [Claim(true, left - q)] == [Claim(false, q), Claim(true, left - q)];
        }
      } else {
        FitsOne(true, left, left);
        assert claims + [Claim(true, left)] == [Claim(true, left)];
      }
    }
  }

  /** The broker only ever builds events that pass validation, priced at the order's limit. */
  lemma EmittedIsValid(m: Storage, db: Db, t: Task, d: Draw, eventId: Uuid, executionId: string)
    requires TaskOk(m, db, t) && InRange(d) && executionId != ""
    ensures Continuation(t, d).Some? ==> TaskOk(m, db, Continuation(t, d).value)
    ensures Continuation(t, d).Some? ==>
      Continuation(t, d).value.OrderId() == t.OrderId() && !t.Cancellation? && !Continuation(t, d).value.Cancellation?
    ensures var e := Emitted(t, d, eventId, executionId);
      && WellFormed(e) && CleanCommand(m, Handle(e)) && e.eventId == eventId && e.orderId == t.OrderId()
      && (ExecutionKey(e) == executionId || ExecutionKey(e) == eventId)
      && (IsFill(e) ==> !t.Cancellation? && e.price == Some(db.orders[e.orderId].price))
  {
    CleanZero(m);
    if t.Simulation? && d.DrawPartial? {
      PartialQuantityFits(t.order.remaining, d.ratio, 0);
      PartialIsClean(m, t.order.remaining, d.ratio);
    }
    hide PartialQuantity;
    hide Stored;
  }

  lemma PartialIsClean(m: Storage, remaining: real, ratio: real)
    requires remaining > 0.0 && 0.25 <= ratio <= 0.75 && Clean(m, remaining)
    ensures Clean(m, PartialQuantity(remaining, ratio)) && Clean(m, remaining - PartialQuantity(remaining, ratio))
  {
    hide PartialQuantity;
    if m.Scale8? {
      CleanIsWhole(remaining);
      var n: int :| IsUnits(remaining, n);
      PartialQuantityFits(remaining, ratio, n);
      CleanIsWhole(PartialQuantity(remaining, ratio));
      CleanSum(m, remaining, PartialQuantity(remaining, ratio));
    }
    hide Stored;
  }

  lemma WakeKeepsTasks(m: Storage, s: System, t: Turn)
    requires SystemOk(m, s) && t.Wake? && t.task in s.tasks && InRange(t.draw) && FreshIds(s, t.eventId, t.executionId)
    ensures TasksOk(m, TakeTurn(m, s, t))
  {
    hide Inv;
    hide PlanOk;
    hide QueueOk;
    hide TaskOk;
    hide FreshIds;
    hide Emitted;
    hide Continuation;
    assert t.executionId != "" by { IdsFresh(s, t.eventId, t.executionId); }
    EmittedIsValid(m, s.db, s.tasks[t.task], t.draw, t.eventId, t.executionId);
  }

  lemma IdsFresh(s: System, eventId: Uuid, executionId: string)
    requires FreshIds(s, eventId, executionId)
    ensures executionId != ""
  {
  }

  lemma WakeKeepsQueue(m: Storage, s: System, t: Turn)
    requires SystemOk(m, s) && t.Wake? && t.task in s.tasks && InRange(t.draw) && FreshIds(s, t.eventId, t.executionId)
    ensures QueueOk(m, TakeTurn(m, s, t))
  {
    hide Inv;
    hide PlanOk;
    hide Emitted;
    hide Continuation;
    assert TaskOk(m, s.db, s.tasks[t.task]);
    EmittedIsValid(m, s.db, s.tasks[t.task], t.draw, t.eventId, t.executionId);
    hide TaskOk;
    hide WellFormed;
    hide ExecutionKey;
  }

  lemma WakeKeepsPlan(m: Storage, s: System, t: Turn, id: Uuid)
    requires SystemOk(m, s) && t.Wake? && t.task in s.tasks && InRange(t.draw) && FreshIds(s, t.eventId, t.executionId)
    requires id in s.db.orders
    ensures PlanOk(TakeTurn(m, s, t), id)
  {
    hide Inv;
    hide QueueOk;
    hide Fits;
    hide Emitted;
    hide Continuation;
    hide Planned;
    hide FillIsFresh;
    hide IsFill;
    var o, task := s.db.orders[id], s.tasks[t.task];
    var e := Emitted(task, t.draw, t.eventId, t.executionId);
    assert PlanOk(s, id);
    ClaimsAppend(s.queue, e, id);
    hide Claims;
    OrderOf(m, s.db, id);
    assert Working(o.status) ==> o.remaining > 0.0;
    hide OrderOk;
    if Works(task, id) {
      assert TaskOk(m, s.db, task);
      hide TaskOk;
      if Working(o.status) {
        EmittedFits(task, t.draw, t.eventId, t.executionId, Claims(s.queue, id), o);
        assert e.orderId == id by { EmittedIsValid(m, s.db, task, t.draw, t.eventId, t.executionId); }
        assert Claims(s.queue + [e], id) == if IsFill(e) then Claims(s.queue, id) + [ClaimOf(e)] else Claims(s.queue, id);
        assert forall k :: k in s.tasks && k != t.task ==> !Works(s.tasks[k], id);
      }
    } else {
      hide TaskOk;
      NoClaimFromOthers(task, t.draw, t.eventId, t.executionId, id);
      assert Claims(s.queue + [e], id) == Claims(s.queue, id);
    }
  }

  lemma NoClaimFromOthers(t: Task, d: Draw, eventId: Uuid, executionId: string, id: Uuid)
    requires !Works(t, id)
    ensures !FillFor(Emitted(t, d, eventId, executionId), id)
    ensures Continuation(t, d).Some? ==> !Works(Continuation(t, d).value, id)
  {
    hide PartialQuantity;
  }

  lemma WakeKeepsSystem(m: Storage, s: System, t: Turn)
    requires SystemOk(m, s) && t.Wake?
    ensures SystemOk(m, TakeTurn(m, s, t))
  {
    hide Inv;
    hide QueueOk;
    hide PlanOk;
    hide TasksOk;
    hide FreshIds;
    if t.task in s.tasks && InRange(t.draw) && FreshIds(s, t.eventId, t.executionId) {
      WakeKeepsTasks(m, s, t);
      WakeKeepsQueue(m, s, t);
      forall id | id in s.db.orders ensures PlanOk(TakeTurn(m, s, t), id) {
        WakeKeepsPlan(m, s, t, id);
      }
    }
  }

  // ---------- a client's turn ----------

  predicate Requests(c: Command) { !c.Handle? && !c.RoutingFailed? }

  /** What a client's transaction and the calls that follow it change of what the broker depends on. */
  ghost predicate Requested(db: Db, c: Command, after: Db, calls: seq<Outbound>) {
    && after.processed == db.processed && after.fills == db.fills
    && (|| (after.orders == db.orders && calls == [])
        || (&& c.Place? && c.orderId !in db.orders && c.orderId in after.orders
            && after.orders == db.orders[c.orderId := after.orders[c.orderId]]
            && var o := after.orders[c.orderId];
               && o.price == c.payload.price && o.side == c.payload.side
               && if o.status.Routed? then calls == [Submit(ToBroker(c.orderId, o))] && o.price > 0.0 && o.remaining > 0.0
                  else Terminal(o.status) && calls == [])
        || (&& c.RequestCancel? && c.orderId in db.orders && Working(db.orders[c.orderId].status)
            && after.orders == db.orders[c.orderId := db.orders[c.orderId].(status := CancelPending)]
            && calls == [CancelAtBroker(c.orderId, c.reason)]))
  }

  /** What a placement can write. */
  lemma PlacementWrites(m: Storage, p: Payload, id: Uuid, expiry: int, v: View)
    requires PlaceVerdict(m, p, id, expiry, v).Write?
    ensures var c, o := PlaceVerdict(m, p, id, expiry, v).change, NewOrder(p, expiry);
      && c.orderId == id && c.position.None? && c.fill.None? && c.processed.None? && !v.orderIdTaken
      && OrderChecks(StoreOrder(m, o))
      && if c.order.status.Routed? then c.order == o.(status := Routed) && c.outbox == [Submit(ToBroker(id, o))]
         else c.order == o.(status := Rejected, rejection := Some("Insufficient buying power")) && c.outbox == []
  {
    hide AccountChecks;
    hide OrderChecks;
    hide StoreOrder;
    hide StoreAccount;
    hide MatchesRequest;
    hide RequiredBuyingPower;
    hide Reserve;
  }

  /** A new order is stored as it is, routed or rejected. */
  lemma PlacementStored(m: Storage, p: Payload, expiry: int)
    requires Clean(m, p.quantity) && Clean(m, p.price)
    ensures var o := NewOrder(p, expiry);
      && StoreOrder(m, o) == o
      && StoreOrder(m, o.(status := Routed)) == o.(status := Routed)
      && (var r := o.(status := Rejected, rejection := Some("Insufficient buying power")); StoreOrder(m, r) == r)
  {
    NewOrderIsClean(m, p, expiry);
    hide Stored;
  }

  lemma PlaceRequested(m: Storage, db: Db, c: Command)
    requires c.Place? && CleanCommand(m, c)
    ensures Requested(db, c, Step(m, db, c).db, CallsOf(m, db, c))
  {
    hide PlaceVerdict;
    hide FindByKey;
    hide ClientIdTaken;
    hide StoreOrder;
    hide StoreAccount;
    var v := ViewOf(db, c);
    if PlaceVerdict(m, c.payload, c.orderId, c.expiry, v).Write? {
      PlacementWrites(m, c.payload, c.orderId, c.expiry, v);
      PlacementStored(m, c.payload, c.expiry);
    }
    hide Stored;
  }

  lemma CancelIsRequested(m: Storage, db: Db, c: Command)
    requires Inv(m, db) && c.RequestCancel?
    ensures Requested(db, c, Step(m, db, c).db, CallsOf(m, db, c))
  {
    hide Inv;
    hide Stored;
    if c.orderId in db.orders {
      OrderOf(m, db, c.orderId);
      StoreKeepsOrder(m, db.orders[c.orderId].(status := CancelPending));
    }
    hide StoreOrder;
    hide OrderOk;
  }

  lemma ClientRequested(m: Storage, db: Db, c: Command)
    requires Inv(m, db) && Requests(c) && CleanCommand(m, c)
    ensures Requested(db, c, Step(m, db, c).db, CallsOf(m, db, c))
  {
    hide Inv;
    hide Judge;
    if c.Place? {
      hide Step;
      hide Requested;
      PlaceRequested(m, db, c);
    } else if c.RequestCancel? {
      hide Step;
      hide Requested;
      CancelIsRequested(m, db, c);
    }
  }

  lemma SpawnedTasks(tasks: map<nat, Task>, next: nat, calls: seq<Outbound>)
    requires |calls| <= 1
    ensures Spawn(tasks, next, calls) == if calls == [] then tasks else tasks[next := TaskFor(calls[0])]
  {
    if calls != [] {
      assert calls[1..] == [];
    }
  }

  /** The task of a new order works with its identity. */
  lemma NewTaskOk(m: Storage, db: Db, id: Uuid)
    requires Inv(m, db) && id in db.orders && db.orders[id].remaining > 0.0
    ensures TaskOk(m, db, Simulation(ToBroker(id, db.orders[id])))
  {
    hide Inv;
    hide Stored;
    OrderOf(m, db, id);
  }

  lemma ClientKeepsTasks(m: Storage, s: System, c: Command)
    requires SystemOk(m, s) && Requests(c) && CleanCommand(m, c)
    ensures TasksOk(m, TakeTurn(m, s, Client(c)))
  {
    hide Inv;
    hide LedgerExact;
    hide Step;
    hide CallsOf;
    hide QueueOk;
    hide PlanOk;
    hide Stored;
    hide CleanCommand;
    ClientRequested(m, s.db, c);
    SpawnedTasks(s.tasks, s.nextTask, CallsOf(m, s.db, c));
    hide Spawn;
    var after := Step(m, s.db, c).db;
    StepKeepsInv(m, s.db, c);
    if c.Place? && c.orderId in after.orders && after.orders[c.orderId].remaining > 0.0 {
      NewTaskOk(m, after, c.orderId);
    }
    forall k | k in s.tasks ensures TaskOk(m, after, s.tasks[k]) {
      OldTaskOk(m, s.db, after, c, CallsOf(m, s.db, c), s.tasks[k]);
    }
    hide TaskOk;
  }

  lemma OldTaskOk(m: Storage, db: Db, after: Db, c: Command, calls: seq<Outbound>, t: Task)
    requires Requested(db, c, after, calls) && TaskOk(m, db, t)
    ensures TaskOk(m, after, t)
  {
    hide Stored;
  }

  lemma ClientKeepsQueue(m: Storage, s: System, c: Command)
    requires SystemOk(m, s) && Requests(c) && CleanCommand(m, c)
    ensures QueueOk(m, TakeTurn(m, s, Client(c)))
  {
    hide Inv;
    hide Step;
    hide CallsOf;
    hide TasksOk;
    hide PlanOk;
    hide Spawn;
    hide FillIsFresh;
    hide ExecutionKey;
    hide WellFormed;
    ClientRequested(m, s.db, c);
    forall i | 0 <= i < |s.queue| ensures EventOk(m, TakeTurn(m, s, Client(c)).db, s.queue[i]) {
      assert EventOk(m, s.db, s.queue[i]);
    }
  }

  lemma ClientKeepsPlan(m: Storage, s: System, c: Command, id: Uuid)
    requires SystemOk(m, s) && Requests(c) && CleanCommand(m, c) && id in TakeTurn(m, s, Client(c)).db.orders
    ensures PlanOk(TakeTurn(m, s, Client(c)), id)
  {
    hide Inv;
    hide Step;
    hide CallsOf;
    hide FillIsFresh;
    hide ExecutionKey;
    hide WellFormed;
    hide Fits;
    ClientRequested(m, s.db, c);
    SpawnedTasks(s.tasks, s.nextTask, CallsOf(m, s.db, c));
    hide Spawn;
    if id in s.db.orders {
      hide QueueOk;
      assert PlanOk(s, id);
    } else {
      forall i | 0 <= i < |s.queue| ensures s.queue[i].orderId != id {
        assert EventOk(m, s.db, s.queue[i]);
      }
      NoClaims(s.queue, id);
      NothingFits(TakeTurn(m, s, Client(c)).db.orders[id].remaining);
    }
  }

  lemma NothingFits(left: real)
    ensures Fits([], left)
  {
  }

  /** A transaction that leaves the prices whole leaves no account drifting. */
  lemma LedgerStays(m: Storage, db: Db, c: Command)
    requires Inv(m, db) && CleanCommand(m, c) && LedgerExact(m, db) && WholePrices(m, Step(m, db, c).db.orders)
    ensures Inv(m, Step(m, db, c).db) && LedgerExact(m, Step(m, db, c).db)
  {
    hide Inv;
    hide Step;
    hide Drift;
    hide CleanCommand;
    StepKeepsInv(m, db, c);
    var after := Step(m, db, c).db;
    forall a | a in after.accounts ensures Drift(after, a) == 0.0 {
      HeldIsWhole(m, after, a);
      HeldIsClean(m, after.orders, a);
      if a in db.accounts {
        StepDrift(m, db, c, a);
      } else {
        FreshAccountHasNoDrift(m, db, c, a);
      }
    }
  }

  lemma HeldIsWhole(m: Storage, db: Db, a: Uuid)
    requires Inv(m, db) && WholePrices(m, db.orders)
    ensures WholeHeld(m, db.orders, a)
  {
    hide Inv;
    forall id | id in db.orders ensures Clean(m, Held(db.orders[id], a)) {
      OrderOf(m, db, id);
      OrderHeldIsWhole(m, db.orders[id], a);
    }
    hide Stored;
  }

  lemma OrderHeldIsWhole(m: Storage, o: Order, a: Uuid)
    requires OrderOk(m, o) && (o.side.Buy? ==> WholePrice(m, o.price))
    ensures Clean(m, Held(o, a))
  {
    CleanZero(m);
    if o.side.Buy? {
      WholeShare(m, o.remaining, o.price);
    }
    hide Stored;
    hide Notional;
  }

  lemma ClientKeepsLedger(m: Storage, s: System, c: Command)
    requires SystemOk(m, s) && LedgerExact(m, s.db) && Requests(c) && GoodTurn(m, Client(c))
    ensures var after := Step(m, s.db, c).db; Inv(m, after) && LedgerExact(m, after)
  {
    hide Inv;
    hide Step;
    hide CallsOf;
    hide QueueOk;
    hide PlanOk;
    hide TasksOk;
    hide CleanCommand;
    ClientRequested(m, s.db, c);
    hide WholePrice;
    hide Drift;
    LedgerStays(m, s.db, c);
  }

  lemma ClientKeepsSystem(m: Storage, s: System, c: Command)
    requires SystemOk(m, s) && CleanCommand(m, c)
    ensures SystemOk(m, TakeTurn(m, s, Client(c)))
  {
    hide Inv;
    hide Step;
    hide CallsOf;
    hide QueueOk;
    hide PlanOk;
    hide TasksOk;
    hide CleanCommand;
    if Requests(c) {
      StepKeepsInv(m, s.db, c);
      ClientKeepsTasks(m, s, c);
      ClientKeepsQueue(m, s, c);
      forall id | id in TakeTurn(m, s, Client(c)).db.orders ensures PlanOk(TakeTurn(m, s, Client(c)), id) {
        ClientKeepsPlan(m, s, c, id);
      }
    }
  }

  // ---------- every turn ----------

  lemma StartIsOk(m: Storage)
    ensures SystemOk(m, START)
  {
    EmptyInv(m);
    hide Inv;
  }

  /** So far, no event the worker took has raised. */
  ghost predicate NothingDropped(m: Storage, turns: seq<Turn>) {
    turns == [] ||
    (var rest := turns[..|turns| - 1];
     NothingDropped(m, rest) && (turns[|turns| - 1].Work? ==> Undropped(m, Evolve(m, rest))))
  }

  lemma TurnKeepsSystem(m: Storage, s: System, t: Turn)
    requires SystemOk(m, s) && (t.Client? ==> CleanCommand(m, t.command)) && (t.Work? ==> Undropped(m, s))
    ensures SystemOk(m, TakeTurn(m, s, t))
  {
    hide SystemOk;
    hide TakeTurn;
    hide Undropped;
    hide CleanCommand;
    match t
    case Client(c) => ClientKeepsSystem(m, s, c);
    case Wake(_, _, _, _) => WakeKeepsSystem(m, s, t);
    case Work => WorkKeepsSystem(m, s);
    case Shutdown => ShutdownKeepsSystem(m, s);
  }

  /**
   * Whatever clients ask, whatever the broker draws and however tasks are scheduled, as long as the worker
   * has dropped nothing the queue and the tasks claim no more than each order can take, in order.
   */
  lemma {:induction false} SystemStaysOk(m: Storage, turns: seq<Turn>)
    requires CleanTurns(m, turns) && NothingDropped(m, turns)
    ensures SystemOk(m, Evolve(m, turns))
  {
    hide SystemOk;
    hide TakeTurn;
    hide Undropped;
    hide CleanCommand;
    if turns == [] {
      StartIsOk(m);
    } else {
      SystemStaysOk(m, turns[..|turns| - 1]);
      TurnKeepsSystem(m, Evolve(m, turns[..|turns| - 1]), turns[|turns| - 1]);
    }
  }

  lemma ShutdownKeepsSystem(m: Storage, s: System)
    requires SystemOk(m, s)
    ensures SystemOk(m, TakeTurn(m, s, Shutdown))
  {
    hide Inv;
    hide LedgerExact;
    hide EventOk;
    hide Fits;
    forall id | id in s.db.orders ensures PlanOk(TakeTurn(m, s, Shutdown), id) {
      assert PlanOk(s, id);
    }
  }

  lemma TurnKeepsLedger(m: Storage, s: System, t: Turn)
    requires SystemOk(m, s) && LedgerExact(m, s.db) && GoodTurn(m, t)
    ensures (t.Work? ==> Undropped(m, s)) && LedgerExact(m, TakeTurn(m, s, t).db)
  {
    hide Inv;
    hide Step;
    hide CallsOf;
    hide LedgerExact;
    hide TasksOk;
    hide PlanOk;
    hide EventOk;
    hide FreshIds;
    if t.Client? && Requests(t.command) {
      ClientKeepsLedger(m, s, t.command);
    } else if t.Work? && s.queue != [] {
      HeadOk(m, s);
      NothingRaises(m, s.db, s.queue[0]);
      WorkKeepsLedger(m, s);
    }
  }

  /** When the amounts clients bring are stored as they are, no account ever drifts and nothing is ever dropped. */
  lemma {:induction false} GoodSchedules(m: Storage, turns: seq<Turn>)
    requires GoodTurns(m, turns)
    ensures NothingDropped(m, turns) && SystemOk(m, Evolve(m, turns)) && LedgerExact(m, Evolve(m, turns).db)
  {
    hide SystemOk;
    hide LedgerExact;
    hide TakeTurn;
    hide Undropped;
    hide GoodTurn;
    if turns == [] {
      StartIsOk(m);
      assert LedgerExact(m, EMPTY) by { EmptyIsExact(m); }
    } else {
      var rest, t := turns[..|turns| - 1], turns[|turns| - 1];
      GoodSchedules(m, rest);
      TurnKeepsLedger(m, Evolve(m, rest), t);
      assert GoodTurn(m, t);
      assert t.Client? ==> CleanCommand(m, t.command) by { TurnIsClean(m, t); }
      TurnKeepsSystem(m, Evolve(m, rest), t);
    }
  }

  lemma TurnIsClean(m: Storage, t: Turn)
    requires GoodTurn(m, t)
    ensures t.Client? ==> CleanCommand(m, t.command)
  {
  }

  lemma EmptyIsExact(m: Storage)
    ensures LedgerExact(m, EMPTY)
  {
  }

  /** How the worker answers an event that does not raise. */
  ghost predicate Answered(m: Storage, db: Db, e: BrokerEvent) {
    && e.orderId in db.orders
    && Step(m, db, Handle(e)).outcome == Ok(Applied(
         if IsFill(e) then !Terminal(db.orders[e.orderId].status)
         else if e.kind.Reject? then db.orders[e.orderId].status.Routed?
         else Working(db.orders[e.orderId].status)))
  }

  /**
   * End to end: for every schedule, the next event of the queue is handled without an error. A fill is
   * applied if and only if its order is not finished yet; a rejection if and only if the order is still
   * routed; a cancellation if and only if the order is still working. Exact storage asks nothing of the
   * clients; rounded storage asks for buys priced in whole units.
   */
  lemma WorkerNeverDropsAFill(m: Storage, turns: seq<Turn>)
    requires GoodTurns(m, turns) && Evolve(m, turns).queue != []
    ensures Answered(m, Evolve(m, turns).db, Evolve(m, turns).queue[0])
  {
    hide GoodTurns;
    hide SystemOk;
    hide LedgerExact;
    hide Step;
    hide TakeTurn;
    hide Answered;
    GoodSchedules(m, turns);
    var s := Evolve(m, turns);
    hide Evolve;
    assert Inv(m, s.db) && EventOk(m, s.db, s.queue[0]) by {
      SystemParts(m, s);
      HeadOk(m, s);
    }
    hide Inv;
    hide EventOk;
    NothingRaises(m, s.db, s.queue[0]);
    NextIsHandled(m, s);
  }

  /** What an event takes out of the reservation of a buy. */
  function Takes(o: Order, e: BrokerEvent): real {
    if !o.side.Buy? then 0.0 else if IsFill(e) then Released(o, e.quantity) else RemainingNotional(o)
  }

  /** The event raises: it takes effect, and takes more than is reserved. */
  ghost predicate Overdraws(db: Db, e: BrokerEvent) {
    && e.orderId in db.orders
    && TakesEffect(db.orders[e.orderId], e)
    && db.orders[e.orderId].accountId in db.accounts
    && Takes(db.orders[e.orderId], e) > db.accounts[db.orders[e.orderId].accountId].reserved
  }

  lemma RaisesIff(m: Storage, db: Db, e: BrokerEvent)
    requires Inv(m, db) && EventOk(m, db, e)
    ensures Step(m, db, Handle(e)).outcome.Fail? <==> Overdraws(db, e)
  {
    hide Inv;
    hide FillIsFresh;
    hide Stored;
    var o := db.orders[e.orderId];
    AccountIsKnown(m, db, e.orderId);
    if TakesEffect(o, e) {
      hide Step;
      if IsFill(e) {
        WithinLimitFillCommitsIff(m, db, e);
      } else {
        ClosingCommitsIff(m, db, e);
        HoldsWhatItGivesBack(m, o);
      }
    } else {
      NoteVerdict(m, e, ViewOf(db, Handle(e)));
      hide HandleVerdict;
    }
    hide OrderOk;
    hide Released;
    hide RemainingNotional;
  }

  /**
   * In either form of storage, over every schedule of clean commands in which nothing has been dropped so
   * far: the next event raises, and the worker drops it, if and only if it takes effect and takes more out of
   * the reservation than is there; otherwise it is answered as it should be.
   */
  lemma NextIsDroppedIff(m: Storage, turns: seq<Turn>)
    requires CleanTurns(m, turns) && NothingDropped(m, turns) && Evolve(m, turns).queue != []
    ensures var s := Evolve(m, turns);
      && (Step(m, s.db, Handle(s.queue[0])).outcome.Fail? <==> Overdraws(s.db, s.queue[0]))
      && (!Overdraws(s.db, s.queue[0]) ==> Answered(m, s.db, s.queue[0]))
  {
    hide CleanTurns;
    hide SystemOk;
    hide Step;
    hide TakeTurn;
    hide Answered;
    hide Overdraws;
    SystemStaysOk(m, turns);
    var s := Evolve(m, turns);
    hide Evolve;
    assert Inv(m, s.db) && EventOk(m, s.db, s.queue[0]) by {
      SystemParts(m, s);
      HeadOk(m, s);
    }
    hide Inv;
    hide EventOk;
    RaisesIff(m, s.db, s.queue[0]);
    if !Overdraws(s.db, s.queue[0]) {
      NextIsHandled(m, s);
    }
  }

  lemma NextIsHandled(m: Storage, s: System)
    requires SystemOk(m, s) && s.queue != [] && Step(m, s.db, Handle(s.queue[0])).outcome.Ok?
    ensures Answered(m, s.db, s.queue[0])
  {
    hide Inv;
    hide Step;
    hide PlanOk;
    hide TasksOk;
    hide FillIsFresh;
    hide Stored;
    var e := s.queue[0];
    HeadOk(m, s);
    EventHandled(m, s.db, e);
    OrderOf(m, s.db, e.orderId);
    if IsFill(e) && Working(s.db.orders[e.orderId].status) {
      ClaimIsTaken(m, s, e);
    }
  }

  // ---------- nothing is left hanging ----------

  predicate TaskOf(t: Task, id: Uuid, cancel: bool) { t.OrderId() == id && t.Cancellation? == cancel }

  predicate EventOf(e: BrokerEvent, id: Uuid, cancel: bool) { e.orderId == id && e.kind.Cancel? == cancel }

  /** The broker still owes the order an event: an execution or rejection, or a cancellation. */
  ghost predicate Coming(s: System, id: Uuid, cancel: bool) {
    || (exists k :: k in s.tasks && TaskOf(s.tasks[k], id, cancel))
    || (exists i :: 0 <= i < |s.queue| && EventOf(s.queue[i], id, cancel))
  }

  /** A routed order waits for an execution or rejection, one being cancelled waits for its cancellation. */
  ghost predicate Awaits(s: System, id: Uuid)
    requires id in s.db.orders
  {
    && (s.db.orders[id].status.Routed? ==> Coming(s, id, false))
    && (s.db.orders[id].status.CancelPending? ==> Coming(s, id, true))
  }

  lemma EmittedFor(t: Task, d: Draw, eventId: Uuid, executionId: string, id: Uuid, cancel: bool)
    requires TaskOf(t, id, cancel)
    ensures EventOf(Emitted(t, d, eventId, executionId), id, cancel)
  {
    hide PartialQuantity;
  }

  lemma WakeKeepsComing(m: Storage, s: System, t: Turn, id: Uuid, cancel: bool)
    requires t.Wake? && Coming(s, id, cancel)
    ensures Coming(TakeTurn(m, s, t), id, cancel)
  {
    hide FreshIds;
    hide Emitted;
    hide Continuation;
    hide TaskOf;
    hide EventOf;
    var s' := TakeTurn(m, s, t);
    if s' != s {
      if i :| 0 <= i < |s.queue| && EventOf(s.queue[i], id, cancel) {
        assert s'.queue[i] == s.queue[i];
      } else {
        var k :| k in s.tasks && TaskOf(s.tasks[k], id, cancel);
        if k == t.task {
          EmittedFor(s.tasks[k], t.draw, t.eventId, t.executionId, id, cancel);
          assert EventOf(s'.queue[|s.queue|], id, cancel);
        } else {
          assert k in s'.tasks && s'.tasks[k] == s.tasks[k];
        }
      }
    }
  }

  lemma WakeKeepsAwaits(m: Storage, s: System, t: Turn, id: Uuid)
    requires t.Wake? && id in s.db.orders && Awaits(s, id)
    ensures TakeTurn(m, s, t).db == s.db && Awaits(TakeTurn(m, s, t), id)
  {
    hide FreshIds;
    hide Emitted;
    hide Continuation;
    if s.db.orders[id].status.Routed? {
      WakeKeepsComing(m, s, t, id, false);
    }
    if s.db.orders[id].status.CancelPending? {
      WakeKeepsComing(m, s, t, id, true);
    }
    hide Coming;
  }

  lemma ClientKeepsComing(m: Storage, s: System, c: Command, id: Uuid, cancel: bool)
    requires SystemOk(m, s) && Requests(c) && CleanCommand(m, c) && Coming(s, id, cancel)
    ensures Coming(TakeTurn(m, s, Client(c)), id, cancel)
  {
    hide Inv;
    hide Step;
    hide CallsOf;
    hide QueueOk;
    hide PlanOk;
    hide TaskOk;
    hide TaskOf;
    hide EventOf;
    ClientRequested(m, s.db, c);
    SpawnedTasks(s.tasks, s.nextTask, CallsOf(m, s.db, c));
    hide Spawn;
    var s' := TakeTurn(m, s, Client(c));
    if k :| k in s.tasks && TaskOf(s.tasks[k], id, cancel) {
      assert s'.tasks[k] == s.tasks[k];
    } else {
      assert s'.queue == s.queue;
    }
  }

  lemma ClientKeepsAwaits(m: Storage, s: System, c: Command, id: Uuid)
    requires SystemOk(m, s) && Requests(c) && CleanCommand(m, c) && id in TakeTurn(m, s, Client(c)).db.orders
    requires forall i :: i in s.db.orders ==> Awaits(s, i)
    ensures Awaits(TakeTurn(m, s, Client(c)), id)
  {
    hide SystemOk;
    hide Step;
    hide CallsOf;
    assert Requested(s.db, c, TakeTurn(m, s, Client(c)).db, CallsOf(m, s.db, c)) by {
      assert Inv(m, s.db) by { SystemParts(m, s); }
      ClientRequested(m, s.db, c);
    }
    SpawnedTasks(s.tasks, s.nextTask, CallsOf(m, s.db, c));
    hide Spawn;
    var s' := TakeTurn(m, s, Client(c));
    if id in s.db.orders && s'.db.orders[id] == s.db.orders[id] {
      if s.db.orders[id].status.Routed? {
        ClientKeepsComing(m, s, c, id, false);
      }
      if s.db.orders[id].status.CancelPending? {
        ClientKeepsComing(m, s, c, id, true);
      }
    } else if |CallsOf(m, s.db, c)| == 1 {
      assert TaskOf(s'.tasks[s.nextTask], id, c.RequestCancel?);
    }
  }

  lemma SystemParts(m: Storage, s: System)
    requires SystemOk(m, s)
    ensures Inv(m, s.db) && TasksOk(m, s) && QueueOk(m, s)
  {
    hide Inv;
    hide TasksOk;
    hide QueueOk;
    hide PlanOk;
  }

  /** An event the order waits for is applied, and the order stops waiting for it. */
  lemma AwaitedIsApplied(m: Storage, s: System, id: Uuid)
    requires SystemOk(m, s) && s.queue != [] && s.queue[0].orderId == id
    ensures id in s.db.orders && WellFormed(s.queue[0]) && s.db.orders[id].filled >= 0.0
    ensures var o, e := s.db.orders[id], s.queue[0]; var o' := OrderAfter(m, o, e);
      && !o'.status.Routed?
      && (o'.status.CancelPending? ==> o.status.CancelPending? && !e.kind.Cancel?)
  {
    hide Inv;
    hide PlanOk;
    hide TasksOk;
    hide FillIsFresh;
    var e := s.queue[0];
    HeadOk(m, s);
    OrderOf(m, s.db, id);
    if IsFill(e) && Working(s.db.orders[id].status) {
      ClaimIsTaken(m, s, e);
    }
  }

  lemma WorkKeepsComing(m: Storage, s: System, id: Uuid, cancel: bool)
    requires Coming(s, id, cancel) && s.queue != [] && !EventOf(s.queue[0], id, cancel)
    ensures Coming(TakeTurn(m, s, Work), id, cancel)
  {
    hide Step;
    hide TaskOf;
    hide EventOf;
    var s' := TakeTurn(m, s, Work);
    if k :| k in s.tasks && TaskOf(s.tasks[k], id, cancel) {
      assert s'.tasks[k] == s.tasks[k];
    } else {
      var i :| 0 <= i < |s.queue| && EventOf(s.queue[i], id, cancel);
      assert s'.queue[i - 1] == s.queue[i];
    }
  }

  /** What the worker's turn does to the orders. */
  lemma WorkDoes(m: Storage, s: System)
    requires SystemOk(m, s) && s.queue != [] && Undropped(m, s)
    ensures var e := s.queue[0];
      && e.orderId in s.db.orders && WellFormed(e) && s.db.orders[e.orderId].filled >= 0.0
      && TakeTurn(m, s, Work).db.orders == s.db.orders[e.orderId := OrderAfter(m, s.db.orders[e.orderId], e)]
  {
    hide Inv;
    hide PlanOk;
    hide TasksOk;
    hide Step;
    hide FillIsFresh;
    hide OrderAfter;
    HeadOk(m, s);
    EventHandled(m, s.db, s.queue[0]);
  }

  lemma WorkKeepsAwaits(m: Storage, s: System, id: Uuid)
    requires SystemOk(m, s) && s.queue != [] && Undropped(m, s) && id in s.db.orders && Awaits(s, id)
    ensures id in TakeTurn(m, s, Work).db.orders && Awaits(TakeTurn(m, s, Work), id)
  {
    hide SystemOk;
    hide Coming;
    hide OrderAfter;
    hide TakeTurn;
    WorkDoes(m, s);
    if s.queue[0].orderId == id {
      AwaitedIsApplied(m, s, id);
    }
    hide WellFormed;
    var o' := TakeTurn(m, s, Work).db.orders[id];
    if o'.status.Routed? {
      WorkKeepsComing(m, s, id, false);
    }
    if o'.status.CancelPending? {
      WorkKeepsComing(m, s, id, true);
    }
  }

  predicate NoShutdown(turns: seq<Turn>) { forall i :: 0 <= i < |turns| ==> !turns[i].Shutdown? }

  lemma {:induction false} OrdersAwait(m: Storage, turns: seq<Turn>, id: Uuid)
    requires CleanTurns(m, turns) && NothingDropped(m, turns) && NoShutdown(turns) && id in Evolve(m, turns).db.orders
    ensures Awaits(Evolve(m, turns), id)
  {
    hide SystemOk;
    hide TakeTurn;
    hide Awaits;
    if turns != [] {
      var rest, t := turns[..|turns| - 1], turns[|turns| - 1];
      var s := Evolve(m, rest);
      SystemStaysOk(m, rest);
      forall i | i in s.db.orders ensures Awaits(s, i) {
        OrdersAwait(m, rest, i);
      }
      TurnKeepsAwaits(m, s, t, id);
    }
  }

  lemma TurnKeepsAwaits(m: Storage, s: System, t: Turn, id: Uuid)
    requires SystemOk(m, s) && (t.Client? ==> CleanCommand(m, t.command)) && (t.Work? ==> Undropped(m, s))
    requires !t.Shutdown? && (forall i :: i in s.db.orders ==> Awaits(s, i))
    requires id in TakeTurn(m, s, t).db.orders
    ensures Awaits(TakeTurn(m, s, t), id)
  {
    hide SystemOk;
    hide Awaits;
    hide Step;
    hide CallsOf;
    match t
    case Client(c) =>
      if Requests(c) {
        ClientKeepsAwaits(m, s, c, id);
      }
    case Wake(_, _, _, _) => WakeKeepsAwaits(m, s, t, id);
    case Work =>
      if s.queue != [] {
        WorkDoes(m, s);
        WorkKeepsAwaits(m, s, id);
      }
  }

  /**
   * While the broker has not been shut down: when it has no task left and the queue is empty, no order
   * still waits for anybody. Each is finished, or rests partially filled and is not immediate-or-cancel.
   */
  lemma NothingLeftHanging(m: Storage, turns: seq<Turn>, id: Uuid)
    requires CleanTurns(m, turns) && NothingDropped(m, turns) && NoShutdown(turns)
    requires Evolve(m, turns).tasks == map[] && Evolve(m, turns).queue == [] && id in Evolve(m, turns).db.orders
    ensures var o := Evolve(m, turns).db.orders[id];
      Terminal(o.status) || (o.status.PartiallyFilled? && !o.timeInForce.Ioc? && 0.0 < o.filled < o.quantity)
  {
    hide CleanTurns;
    hide Inv;
    hide TakeTurn;
    hide TasksOk;
    hide PlanOk;
    hide QueueOk;
    hide Stored;
    SystemStaysOk(m, turns);
    OrdersAwait(m, turns, id);
    OrderOf(m, Evolve(m, turns).db, id);
    hide Evolve;
  }

  // ---------- after a shutdown ----------

  /** The worker empties the queue. */
  ghost function Drained(m: Storage, s: System): System
    decreases |s.queue|
  {
    if s.queue == [] then s else Drained(m, TakeTurn(m, s, Work))
  }

  /** No event the worker takes while emptying the queue raises. */
  ghost predicate Drains(m: Storage, s: System)
    decreases |s.queue|
  {
    s.queue == [] || (Undropped(m, s) && Drains(m, TakeTurn(m, s, Work)))
  }

  /** It never does when no account has drifted. */
  lemma {:induction false} ExactDrains(m: Storage, s: System)
    requires SystemOk(m, s) && LedgerExact(m, s.db)
    ensures Drains(m, s)
    decreases |s.queue|
  {
    hide SystemOk;
    hide LedgerExact;
    hide TakeTurn;
    hide Undropped;
    if s.queue != [] {
      assert GoodTurn(m, Work);
      TurnKeepsLedger(m, s, Work);
      WorkKeepsSystem(m, s);
      WorkTakesHead(m, s);
      ExactDrains(m, TakeTurn(m, s, Work));
    }
  }

  predicate NothingQueued(queue: seq<BrokerEvent>, id: Uuid) { forall i :: 0 <= i < |queue| ==> queue[i].orderId != id }

  predicate CancelNotQueued(queue: seq<BrokerEvent>, id: Uuid) {
    forall i :: 0 <= i < |queue| ==> !EventOf(queue[i], id, true)
  }

  /** The claims leave something of the order resting. */
  predicate Rests(claims: seq<Claim>, left: real, ioc: bool) {
    claims == [] || (!ioc && claims[0].quantity < left && Rests(claims[1..], left - claims[0].quantity, ioc))
  }

  /** How one event moves an order that waits. */
  lemma WaitingMoves(m: Storage, s: System, id: Uuid)
    requires SystemOk(m, s) && s.queue != [] && s.queue[0].orderId == id
    ensures id in s.db.orders && WellFormed(s.queue[0]) && s.db.orders[id].filled >= 0.0
    ensures var o, e := s.db.orders[id], s.queue[0]; var o' := OrderAfter(m, o, e);
      && !o'.status.Routed?
      && (o'.status.CancelPending? <==> o.status.CancelPending? && !e.kind.Cancel? &&
                                        (IsFill(e) ==> !o.timeInForce.Ioc? && e.quantity < o.remaining))
      && (o'.status.CancelPending? ==>
            o'.timeInForce == o.timeInForce && o'.remaining == o.remaining - (if IsFill(e) then e.quantity else 0.0))
  {
    hide Inv;
    hide LedgerExact;
    hide PlanOk;
    hide TasksOk;
    hide FillIsFresh;
    hide Stored;
    var e := s.queue[0];
    HeadOk(m, s);
    OrderOf(m, s.db, id);
    AfterEvent(m, s.db.orders[id], e);
    if IsFill(e) && Working(s.db.orders[id].status) {
      ClaimIsTaken(m, s, e);
    }
  }

  predicate StaysRouted(s: System, id: Uuid)
    requires id in s.db.orders
  {
    s.db.orders[id].status.Routed? && NothingQueued(s.queue, id)
  }

  predicate StaysPending(s: System, id: Uuid)
    requires id in s.db.orders
  {
    var o := s.db.orders[id];
    o.status.CancelPending? && CancelNotQueued(s.queue, id) && Rests(Claims(s.queue, id), o.remaining, o.timeInForce.Ioc?)
  }

  lemma WorkKeepsWaiting(m: Storage, s: System, id: Uuid)
    requires SystemOk(m, s) && s.queue != [] && Undropped(m, s) && id in s.db.orders
    ensures var next := TakeTurn(m, s, Work);
      && id in next.db.orders
      && (StaysRouted(next, id) <==> StaysRouted(s, id))
      && (StaysPending(next, id) <==> StaysPending(s, id))
  {
    hide SystemOk;
    hide OrderAfter;
    hide TakeTurn;
    WorkDoes(m, s);
    WorkTakesHead(m, s);
    hide Undropped;
    if s.queue[0].orderId == id {
      WaitingMoves(m, s, id);
      hide WellFormed;
      HeadIsTaken(s, TakeTurn(m, s, Work), id);
    } else {
      hide WellFormed;
      OtherIsTaken(s, TakeTurn(m, s, Work), id);
    }
    hide StaysRouted;
    hide StaysPending;
  }

  lemma HeadIsTaken(s: System, next: System, id: Uuid)
    requires s.queue != [] && s.queue[0].orderId == id && next.queue == s.queue[1..]
    requires id in s.db.orders && id in next.db.orders
    requires var o, o', e := s.db.orders[id], next.db.orders[id], s.queue[0];
      && !o'.status.Routed?
      && (o'.status.CancelPending? <==> o.status.CancelPending? && !e.kind.Cancel? &&
                                        (IsFill(e) ==> !o.timeInForce.Ioc? && e.quantity < o.remaining))
      && (o'.status.CancelPending? ==>
            o'.timeInForce == o.timeInForce && o'.remaining == o.remaining - (if IsFill(e) then e.quantity else 0.0))
    ensures StaysRouted(next, id) <==> StaysRouted(s, id)
    ensures StaysPending(next, id) <==> StaysPending(s, id)
  {
    HeadOfQueue(s.queue, id);
    ClaimsOfQueue(s.queue, id);
    hide Claims;
    hide NothingQueued;
    hide CancelNotQueued;
  }

  lemma OtherIsTaken(s: System, next: System, id: Uuid)
    requires s.queue != [] && s.queue[0].orderId != id && next.queue == s.queue[1..]
    requires id in s.db.orders && id in next.db.orders && next.db.orders[id] == s.db.orders[id]
    ensures StaysRouted(next, id) <==> StaysRouted(s, id)
    ensures StaysPending(next, id) <==> StaysPending(s, id)
  {
    HeadOfQueue(s.queue, id);
    ClaimsOfQueue(s.queue, id);
    hide Claims;
    hide Rests;
    hide NothingQueued;
    hide CancelNotQueued;
  }

  lemma {:induction false} DrainedOrder(m: Storage, s: System, id: Uuid)
    requires SystemOk(m, s) && Drains(m, s) && id in s.db.orders
    ensures var end := Drained(m, s);
      && end.queue == [] && end.tasks == s.tasks && id in end.db.orders
      && (end.db.orders[id].status.Routed? <==> StaysRouted(s, id))
      && (end.db.orders[id].status.CancelPending? <==> StaysPending(s, id))
    decreases |s.queue|
  {
    hide SystemOk;
    hide TakeTurn;
    hide Undropped;
    if s.queue != [] {
      var next := TakeTurn(m, s, Work);
      WorkKeepsSystem(m, s);
      WorkTakesHead(m, s);
      WorkKeepsWaiting(m, s, id);
      hide StaysRouted;
      hide StaysPending;
      DrainedOrder(m, next, id);
    }
  }

  lemma WorkTakesHead(m: Storage, s: System)
    requires s.queue != []
    ensures TakeTurn(m, s, Work).queue == s.queue[1..] && TakeTurn(m, s, Work).tasks == s.tasks
  {
    hide Step;
  }

  lemma HeadOfQueue(queue: seq<BrokerEvent>, id: Uuid)
    requires queue != []
    ensures NothingQueued(queue, id) <==> queue[0].orderId != id && NothingQueued(queue[1..], id)
    ensures CancelNotQueued(queue, id) <==> !EventOf(queue[0], id, true) && CancelNotQueued(queue[1..], id)
  {
    assert forall i :: 1 <= i < |queue| ==> queue[i] == queue[1..][i - 1];
    assert forall i :: 0 <= i < |queue[1..]| ==> queue[1..][i] == queue[i + 1];
    hide EventOf;
  }

  lemma ClaimsOfQueue(queue: seq<BrokerEvent>, id: Uuid)
    requires queue != []
    ensures FillFor(queue[0], id) ==>
      var cs := Claims(queue, id); cs != [] && cs[0] == ClaimOf(queue[0]) && cs[1..] == Claims(queue[1..], id)
    ensures !FillFor(queue[0], id) ==> Claims(queue, id) == Claims(queue[1..], id)
  {
  }

  /**
   * Shutting the broker down cancels its tasks and leaves the tables as they are; they stay so when the worker
   * is cancelled with it. If the worker still empties the queue and drops nothing, an order is left routed if
   * and only if it was routed and nothing was queued for it; it is left with its cancellation pending if and
   * only if no cancellation was queued and its queued fills leave a rest.
   */
  lemma ShutdownLeavesHanging(m: Storage, turns: seq<Turn>, id: Uuid)
    requires CleanTurns(m, turns) && NothingDropped(m, turns) && id in Evolve(m, turns).db.orders
    ensures TakeTurn(m, Evolve(m, turns), Shutdown) == Evolve(m, turns).(tasks := map[])
    ensures Drains(m, TakeTurn(m, Evolve(m, turns), Shutdown)) ==>
      var s := Evolve(m, turns); var end := Drained(m, TakeTurn(m, s, Shutdown)); var o := s.db.orders[id];
      && end.queue == [] && end.tasks == map[] && id in end.db.orders
      && (end.db.orders[id].status.Routed? <==> o.status.Routed? && NothingQueued(s.queue, id))
      && (end.db.orders[id].status.CancelPending? <==>
            o.status.CancelPending? && CancelNotQueued(s.queue, id) && Rests(Claims(s.queue, id), o.remaining, o.timeInForce.Ioc?))
  {
    hide CleanTurns;
    hide SystemOk;
    hide NothingQueued;
    hide CancelNotQueued;
    hide Drains;
    SystemStaysOk(m, turns);
    var s := Evolve(m, turns);
    hide Evolve;
    ShutdownKeepsSystem(m, s);
    if Drains(m, TakeTurn(m, s, Shutdown)) {
      DrainedOrder(m, TakeTurn(m, s, Shutdown), id);
    }
    hide Drained;
  }
}
