/** Orders over whole runs: what is never lost, never repeated and never undone. */
module Lifecycle {
  import opened Types
  import opened Numeric
  import opened Tables
  import opened OrderRules
  import opened History
  import opened Transactions
  import opened Invariant
  import opened Steps

  // ---------- what later states keep ----------

  /** Everything a later state keeps of an earlier one. */
  ghost predicate Extends(db: Db, after: Db) {
    && (forall a :: a in db.accounts ==> a in after.accounts && after.accounts[a].userId == db.accounts[a].userId)
    && (forall id :: id in db.orders ==>
          && id in after.orders
          && SameIdentity(db.orders[id], after.orders[id])
          && (Terminal(db.orders[id].status) ==> after.orders[id] == db.orders[id]))
    && (forall e :: e in db.processed ==> e in after.processed && after.processed[e] == db.processed[e])
    && db.fills <= after.fills
    && db.audit <= after.audit
    && db.outbox <= after.outbox
  }

  lemma ExtendsTransitive(a: Db, b: Db, c: Db)
    requires Extends(a, b) && Extends(b, c)
    ensures Extends(a, c)
  {
    assert forall id :: id in a.orders ==> SameIdentity(a.orders[id], b.orders[id]) && SameIdentity(b.orders[id], c.orders[id]);
  }

  /** The only thing written about a finished order is that an event was ignored. */
  lemma FinishedOrdersStay(m: Storage, db: Db, c: Command)
    requires Inv(m, db) && OnOneOrder(c) && Judge(m, c, ViewOf(db, c)).Write?
    requires Subject(c) in db.orders && Terminal(db.orders[Subject(c)].status)
    ensures var ch, o := Judge(m, c, ViewOf(db, c)).change, db.orders[Subject(c)];
      && c.Handle?
      && ch == IgnoreVerdict(c.event, o).change
      && StoreOrder(m, ch.order) == o
  {
    hide Stored;
    hide Inv;
    hide FillVerdict;
    hide CloseVerdict;
    hide IgnoreVerdict;
    var o := db.orders[Subject(c)];
    OrderOf(m, db, Subject(c));
    StoreKeepsOrder(m, o);
    assert IgnoreVerdict(c.event, o).Write? && IgnoreVerdict(c.event, o).change.order == o by {
      IgnoredOrder(c.event, o);
    }
  }

  lemma IgnoredOrder(e: BrokerEvent, o: Order)
    ensures IgnoreVerdict(e, o).Write? && IgnoreVerdict(e, o).change.order == o
  {
  }

  lemma ChangeSubject(m: Storage, db: Db, c: Command)
    requires OnOneOrder(c) && Judge(m, c, ViewOf(db, c)).Write?
    ensures Judge(m, c, ViewOf(db, c)).change.orderId == Subject(c)
  {
    hide Stored;
    hide Execute;
    hide AccountChecks;
    hide OrderChecks;
    hide PositionChecks;
    hide Settle;
    hide Release;
  }

  lemma OrdersExtend(m: Storage, db: Db, c: Change, id: Uuid)
    requires OrderPart(m, db, c) && id in db.orders
    requires c.orderId in db.orders && Terminal(db.orders[c.orderId].status) ==> StoreOrder(m, c.order) == db.orders[c.orderId]
    ensures var after := Commit(m, db, c);
      && id in after.orders
      && SameIdentity(db.orders[id], after.orders[id])
      && (Terminal(db.orders[id].status) ==> after.orders[id] == db.orders[id])
  {
    hide StoreOrder;
    hide OrderOk;
  }

  lemma ChangeExtends(m: Storage, db: Db, c: Change)
    requires OrderPart(m, db, c) && LedgerPart(m, db, c) && ProcessedPart(db, c)
    requires c.orderId in db.orders && Terminal(db.orders[c.orderId].status) ==> StoreOrder(m, c.order) == db.orders[c.orderId]
    ensures Extends(db, Commit(m, db, c))
  {
    hide Stored;
    hide OrderPart;
    hide SameIdentity;
    hide Held;
    hide AccountChecks;
    var after := Commit(m, db, c);
    forall id | id in db.orders
      ensures id in after.orders && SameIdentity(db.orders[id], after.orders[id])
      ensures Terminal(db.orders[id].status) ==> after.orders[id] == db.orders[id]
    {
      OrdersExtend(m, db, c, id);
    }
    hide Terminal;
  }

  lemma WriteExtends(m: Storage, db: Db, c: Command)
    requires Inv(m, db) && CleanCommand(m, c) && OnOneOrder(c) && Judge(m, c, ViewOf(db, c)).Write?
    ensures Extends(db, Commit(m, db, Judge(m, c, ViewOf(db, c)).change))
  {
    hide Inv;
    hide GoodChange;
    hide Commit;
    hide Stored;
    hide Judge;
    hide Extends;
    var ch := Judge(m, c, ViewOf(db, c)).change;
    WriteIsGood(m, db, c);
    GoodParts(m, db, ch);
    ChangeSubject(m, db, c);
    if Subject(c) in db.orders && Terminal(db.orders[Subject(c)].status) {
      FinishedOrdersStay(m, db, c);
    }
    ChangeExtends(m, db, ch);
  }

  lemma StepExtends(m: Storage, db: Db, c: Command)
    requires Inv(m, db) && CleanCommand(m, c)
    ensures Extends(db, Step(m, db, c).db)
  {
    hide Inv;
    hide Commit;
    hide Stored;
    hide Judge;
    ExtendsReflexive(db);
    if OnOneOrder(c) {
      hide Extends;
      if Judge(m, c, ViewOf(db, c)).Write? {
        WriteExtends(m, db, c);
      }
    }
  }

  /** Histories only grow, identities never change, finished orders are never touched again. */
  lemma {:induction false} RunExtends(m: Storage, db: Db, cs: seq<Command>)
    requires Inv(m, db) && CleanRun(m, cs)
    ensures Extends(db, Run(m, db, cs))
  {
    hide Inv;
    hide Step;
    hide Extends;
    if cs == [] {
      ExtendsReflexive(db);
    } else {
      var rest := cs[..|cs| - 1];
      RunExtends(m, db, rest);
      RunKeepsInv(m, db, rest);
      StepExtends(m, Run(m, db, rest), cs[|cs| - 1]);
      ExtendsTransitive(db, Run(m, db, rest), Run(m, db, cs));
    }
  }

  lemma LeadsExtends(m: Storage, db: Db, after: Db)
    requires Inv(m, db) && Leads(m, db, after)
    ensures Extends(db, after) && Inv(m, after)
  {
    hide Inv;
    hide Extends;
    hide Leads;
    hide Run;
    var cs := RunBetween(m, db, after);
    RunExtends(m, db, cs);
    RunKeepsInv(m, db, cs);
  }

  lemma ExtendsReflexive(db: Db)
    ensures Extends(db, db)
  {
  }

  // ---------- the audit log ----------

  /** After a terminal entry a path only repeats that status. */
  lemma {:induction false} NothingAfterTerminal(es: seq<AuditEvent>, s: Status, i: nat, j: nat)
    requires IsPath(es, s) && i < j < |es| && Terminal(es[i].after)
    ensures es[j].before == Some(es[i].after) && es[j].after == es[i].after
  {
    if j == i + 1 {
      assert Follows(es[i], es[j]);
      TransitionsMoveForward(es[i].after, es[j].after);
    } else {
      NothingAfterTerminal(es, s, i, j - 1);
      assert Follows(es[j - 1], es[j]);
      TransitionsMoveForward(es[j - 1].after, es[j].after);
    }
  }

  lemma {:induction false} EventsOfPrefix(audit: seq<AuditEvent>, longer: seq<AuditEvent>, id: Uuid)
    requires audit <= longer
    ensures EventsOf(audit, id) <= EventsOf(longer, id)
  {
    assert longer == audit + longer[|audit|..];
    EventsOfAppend(audit, longer[|audit|..], id);
  }

  /**
   * The audit log of every order is a path from creation to the current status whose changes are all
   * allowed transitions; later runs only append to it, and once it is terminal every new entry is a
   * self-link.
   */
  lemma AuditIsReplayablePath(m: Storage, db: Db, after: Db, id: Uuid)
    requires Reachable(m, db) && Leads(m, db, after) && id in db.orders
    ensures var earlier, all := EventsOf(db.audit, id), EventsOf(after.audit, id);
      && id in after.orders
      && IsPath(earlier, db.orders[id].status)
      && IsPath(all, after.orders[id].status)
      && earlier <= all
      && (Terminal(db.orders[id].status) ==>
            forall j :: |earlier| <= j < |all| ==>
              all[j].before == Some(db.orders[id].status) && all[j].after == db.orders[id].status)
  {
    hide Inv;
    hide Leads;
    hide EventsOf;
    ReachableInv(m, db);
    LeadsExtends(m, db, after);
    PathOf(m, db, id);
    PathOf(m, after, id);
    EventsOfPrefix(db.audit, after.audit, id);
    var es, n := EventsOf(after.audit, id), |EventsOf(db.audit, id)|;
    assert es[n - 1].after == db.orders[id].status;
    if Terminal(db.orders[id].status) {
      forall j | n <= j < |es| ensures es[j].before == Some(db.orders[id].status) && es[j].after == db.orders[id].status {
        NothingAfterTerminal(es, after.orders[id].status, n - 1, j);
      }
    }
  }

  lemma PathOf(m: Storage, db: Db, id: Uuid)
    requires Inv(m, db) && id in db.orders
    ensures IsPath(EventsOf(db.audit, id), db.orders[id].status)
  {
    hide IsPath;
    hide OrdersInv;
    hide FillsInv;
    hide LedgerInv;
    hide PositionsInv;
    hide OutboxInv;
  }

  // ---------- status and quantities ----------

  /** In every committed state the quantities of an order add up and fit its status. */
  lemma StatusQuantityCoherence(m: Storage, db: Db, id: Uuid)
    requires Reachable(m, db) && id in db.orders
    ensures var o := db.orders[id];
      && o.filled + o.cancelled + o.remaining == o.quantity > 0.0
      && o.filled >= 0.0 && o.cancelled >= 0.0 && o.remaining >= 0.0
      && !o.status.New? && !o.status.Validated?
      && (o.status.Filled? <==> o.filled == o.quantity)
      && (o.status.Cancelled? <==> o.cancelled > 0.0)
      && (o.status.Rejected? ==> o.filled == 0.0 && o.cancelled == 0.0)
      && (Working(o.status) ==> o.remaining > 0.0 && o.cancelled == 0.0)
      && (o.timeInForce.Ioc? && o.filled > 0.0 ==> Terminal(o.status))
  {
    hide Inv;
    hide Reachable;
    ReachableInv(m, db);
    OrderOf(m, db, id);
  }

  // ---------- events are applied at most once ----------

  lemma FillRecords(m: Storage, e: BrokerEvent, v: View)
    requires v.order.Some? && e.price.Some? && e.quantity > 0.0
    ensures FillVerdict(m, e, v).Refuse? || (FillVerdict(m, e, v).Write? && FillVerdict(m, e, v).change.processed == AppliedRow(e))
  {
    hide Stored;
    hide Execute;
    hide AccountChecks;
    hide OrderChecks;
    hide PositionChecks;
    hide Settle;
    hide Release;
    hide WithFill;
  }

  lemma CloseRecords(m: Storage, e: BrokerEvent, v: View, closed: Order, kind: AuditKind)
    requires v.order.Some?
    ensures var r := CloseVerdict(m, e, v, closed, kind);
      r.Refuse? || (r.Write? && r.change.processed == AppliedRow(e))
  {
    hide Stored;
    hide AccountChecks;
    hide OrderChecks;
    hide Release;
  }

  lemma HandleRecords(m: Storage, e: BrokerEvent, v: View)
    ensures var r := HandleVerdict(m, e, v);
      && (r.Keep? ==> v.duplicate)
      && (r.Write? ==> r.change.processed.Some? && r.change.processed.value.0 == e.eventId)
  {
    hide Stored;
    hide FillVerdict;
    hide CloseVerdict;
    if v.order.Some? {
      CloseRecords(m, e, v, RejectedOrder(v.order.value, ReasonOr(e, "Rejected by broker")), OrderRejected);
      CloseRecords(m, e, v, CancelledOrder(v.order.value), OrderCancelled);
      if e.price.Some? && e.quantity > 0.0 {
        FillRecords(m, e, v);
      }
    }
  }

  /** The transaction that answers an event records its id. */
  lemma AnsweredIsRecorded(m: Storage, db: Db, e: BrokerEvent)
    requires Step(m, db, Handle(e)).outcome.Ok?
    ensures e.eventId in Step(m, db, Handle(e)).db.processed
  {
    hide StoreOrder;
    hide StoreAccount;
    hide StorePosition;
    hide StoreFill;
    hide HandleVerdict;
    HandleRecords(m, e, ViewOf(db, Handle(e)));
  }

  /** Delivering an answered event id again, at any later time and with any content, changes nothing. */
  lemma RedeliveryChangesNothing(m: Storage, db: Db, e: BrokerEvent, later: Db, again: BrokerEvent)
    requires Reachable(m, db) && CleanCommand(m, Handle(e)) && Step(m, db, Handle(e)).outcome.Ok?
    requires Leads(m, Step(m, db, Handle(e)).db, later) && again.eventId == e.eventId
    ensures Step(m, later, Handle(again)).db == later
    ensures again.orderId in later.orders ==> Step(m, later, Handle(again)).outcome == Ok(Applied(false))
  {
    hide Inv;
    hide Leads;
    hide FillVerdict;
    hide CloseVerdict;
    hide IgnoreVerdict;
    ReachableInv(m, db);
    AnsweredIsRecorded(m, db, e);
    StepKeepsInv(m, db, Handle(e));
    LeadsExtends(m, Step(m, db, Handle(e)).db, later);
  }

  /** No two fill rows share an event id or an execution id. */
  lemma OneFillRowPerEvent(m: Storage, db: Db, i: nat, j: nat)
    requires Reachable(m, db) && i < |db.fills| && j < |db.fills| && i != j
    ensures db.fills[i].eventId != db.fills[j].eventId && db.fills[i].executionId != db.fills[j].executionId
  {
    hide Inv;
    hide Reachable;
    hide FillRowOk;
    ReachableInv(m, db);
    FillsInvOf(m, db);
  }

  /** Every fill row belongs to a known order and to the record of an applied event for it. */
  lemma FillRowsAreRecorded(m: Storage, db: Db, i: nat)
    requires Reachable(m, db) && i < |db.fills|
    ensures var f := db.fills[i];
      && f.orderId in db.orders && f.quantity > 0.0 && f.price > 0.0
      && f.eventId in db.processed && db.processed[f.eventId].applied && db.processed[f.eventId].orderId == f.orderId
  {
    hide Inv;
    hide Reachable;
    ReachableInv(m, db);
    FillsInvOf(m, db);
    assert FillRowOk(m, db, db.fills[i]);
  }

  /** The filled quantity of every order is the sum of its fill rows: nothing, when it has none. */
  lemma FilledIsTheSumOfRows(m: Storage, db: Db, id: Uuid)
    requires Reachable(m, db) && id in db.orders
    ensures db.orders[id].filled == QuantityOf(FillsOf(db.fills, id))
  {
    hide Inv;
    hide Reachable;
    hide FillRowOk;
    ReachableInv(m, db);
    FillsInvOf(m, db);
    assert TotalsAgree(m, db.orders[id], FillsOf(db.fills, id));
  }

  lemma FillsInvOf(m: Storage, db: Db)
    requires Inv(m, db)
    ensures FillsInv(m, db)
  {
    hide OrdersInv;
    hide AuditInv;
    hide LedgerInv;
    hide PositionsInv;
    hide OutboxInv;
    hide FillsInv;
  }

  // ---------- submissions are idempotent ----------

  /** The order is the one stored under the payload's key, and it says what the payload says. */
  ghost predicate Holds(db: Db, p: Payload, id: Uuid) {
    && p.accountId in db.accounts
    && id in db.orders
    && db.orders[id].idempotencyKey == p.idempotencyKey
    && MatchesRequest(db.orders[id], p)
  }

  lemma PlacedHolds(m: Storage, db: Db, c: Command, id: Uuid)
    requires Inv(m, db) && c.Place? && CleanCommand(m, c) && Step(m, db, c).outcome == Ok(OrderIs(id))
    ensures Holds(Step(m, db, c).db, c.payload, id)
  {
    hide Round8;
    hide Inv;
    hide AccountChecks;
    hide OrderChecks;
  }

  lemma HoldsLater(m: Storage, db: Db, later: Db, p: Payload, id: Uuid)
    requires Inv(m, db) && Leads(m, db, later) && Holds(db, p, id)
    ensures Holds(later, p, id)
  {
    hide Inv;
    hide Leads;
    LeadsExtends(m, db, later);
  }

  lemma KeyFindsOrder(m: Storage, db: Db, p: Payload, id: Uuid)
    requires Inv(m, db) && Holds(db, p, id)
    ensures FindByKey(db.orders, p.accountId, p.idempotencyKey) == Some(Existing(id, db.orders[id]))
  {
    hide OrderOk;
    hide AuditInv;
    hide FillsInv;
    hide LedgerInv;
    hide PositionsInv;
    hide OutboxInv;
  }

  /**
   * Once a payload has been answered with an order, sending it again after any later transactions
   * returns the same order and changes nothing; any other payload under the same key is refused
   * without a change.
   */
  lemma SubmissionIsIdempotent(m: Storage, db: Db, first: Command, id: Uuid, later: Db, again: Command)
    requires Reachable(m, db) && first.Place? && CleanCommand(m, first) && Step(m, db, first).outcome == Ok(OrderIs(id))
    requires Leads(m, Step(m, db, first).db, later) && again.Place?
    requires again.payload.accountId == first.payload.accountId && again.payload.idempotencyKey == first.payload.idempotencyKey
    ensures Step(m, later, again) == Result(later, if again.payload == first.payload then Ok(OrderIs(id)) else Fail(DuplicateOrder))
  {
    hide Inv;
    hide Leads;
    hide AccountChecks;
    hide OrderChecks;
    var placed := Step(m, db, first).db;
    ReachableInv(m, db);
    PlacedHolds(m, db, first, id);
    StepKeepsInv(m, db, first);
    HoldsLater(m, placed, later, first.payload, id);
    LeadsExtends(m, placed, later);
    KeyFindsOrder(m, later, first.payload, id);
  }

  /** No two orders of an account ever share an idempotency key or a client order id. */
  lemma KeysStayUnique(m: Storage, db: Db, i: Uuid, j: Uuid)
    requires Reachable(m, db) && i in db.orders && j in db.orders && i != j
    requires db.orders[i].accountId == db.orders[j].accountId
    ensures db.orders[i].idempotencyKey != db.orders[j].idempotencyKey && db.orders[i].clientOrderId != db.orders[j].clientOrderId
  {
    hide Inv;
    hide Reachable;
    ReachableInv(m, db);
    UniqueOf(m, db);
  }

  lemma UniqueOf(m: Storage, db: Db)
    requires Inv(m, db)
    ensures UniqueKeys(db.orders)
  {
    hide UniqueKeys;
    hide OrderOk;
    hide AuditInv;
    hide FillsInv;
    hide LedgerInv;
    hide PositionsInv;
    hide OutboxInv;
  }

  // ---------- one account for each user ----------

  ghost predicate UsersDiffer(accounts: map<Uuid, Account>) {
    forall a, b :: a in accounts && b in accounts && a != b ==> accounts[a].userId != accounts[b].userId
  }

  lemma StepKeepsUsers(m: Storage, db: Db, c: Command)
    requires Inv(m, db) && CleanCommand(m, c) && UsersDiffer(db.accounts)
    ensures UsersDiffer(Step(m, db, c).db.accounts)
  {
    hide Inv;
    hide Judge;
    hide Stored;
    hide AccountChecks;
    if OnOneOrder(c) && Judge(m, c, ViewOf(db, c)).Write? {
      WriteKeepsUsers(m, db, c);
      hide Commit;
    }
  }

  lemma WriteKeepsUsers(m: Storage, db: Db, c: Command)
    requires Inv(m, db) && CleanCommand(m, c) && OnOneOrder(c) && Judge(m, c, ViewOf(db, c)).Write?
    requires UsersDiffer(db.accounts)
    ensures UsersDiffer(Commit(m, db, Judge(m, c, ViewOf(db, c)).change).accounts)
  {
    hide Inv;
    hide Judge;
    hide Stored;
    hide GoodChange;
    var ch := Judge(m, c, ViewOf(db, c)).change;
    WriteIsGood(m, db, c);
    GoodParts(m, db, ch);
    hide OrderPart;
    hide AuditPart;
    hide ProcessedPart;
    hide FillPart;
    hide PositionPart;
    hide OutboxPart;
    hide Held;
    hide AccountChecks;
    hide StoreOrder;
  }

  lemma {:induction false} RunKeepsUsers(m: Storage, cs: seq<Command>)
    requires CleanRun(m, cs)
    ensures UsersDiffer(Run(m, EMPTY, cs).accounts)
  {
    hide Inv;
    hide Step;
    hide UsersDiffer;
    EmptyInv(m);
    if cs == [] {
      assert UsersDiffer(EMPTY.accounts) by { NoUsers(); }
    } else {
      var rest := cs[..|cs| - 1];
      RunKeepsUsers(m, rest);
      RunKeepsInv(m, EMPTY, rest);
      StepKeepsUsers(m, Run(m, EMPTY, rest), cs[|cs| - 1]);
    }
  }

  lemma NoUsers()
    ensures UsersDiffer(EMPTY.accounts)
  {
  }

  /** No user ever has two accounts. */
  lemma OneAccountPerUser(m: Storage, db: Db, a: Uuid, b: Uuid)
    requires Reachable(m, db) && a in db.accounts && b in db.accounts && a != b
    ensures db.accounts[a].userId != db.accounts[b].userId
  {
    hide Inv;
    hide Leads;
    hide Run;
    var cs := RunBetween(m, EMPTY, db);
    RunKeepsUsers(m, cs);
  }

  // ---------- calls to the broker ----------

  lemma {:induction false} CountsSomething(es: seq<AuditEvent>, k: AuditKind)
    ensures CountKind(es, k) > 0 <==> exists i :: 0 <= i < |es| && es[i].kind == k
  {
    if es != [] {
      var rest := es[..|es| - 1];
      CountsSomething(rest, k);
      if i :| 0 <= i < |rest| && rest[i].kind == k {
        assert es[i].kind == k;
      }
    }
  }

  /**
   * The broker is asked to work an order exactly once if the order was ever routed, and never
   * otherwise; it is asked to cancel exactly once if a cancellation was ever requested.
   */
  lemma BrokerCalledOnce(m: Storage, db: Db, id: Uuid)
    requires Reachable(m, db)
    ensures var es := EventsOf(db.audit, id);
      && Submits(db.outbox, id) == (if exists i :: 0 <= i < |es| && es[i].kind == OrderRouted then 1 else 0)
      && Cancels(db.outbox, id) == (if exists i :: 0 <= i < |es| && es[i].kind == CancelRequested then 1 else 0)
  {
    hide Inv;
    hide Reachable;
    ReachableInv(m, db);
    CallsOf(m, db, id);
    CountsSomething(EventsOf(db.audit, id), OrderRouted);
    CountsSomething(EventsOf(db.audit, id), CancelRequested);
  }

  lemma CallsOf(m: Storage, db: Db, id: Uuid)
    requires Inv(m, db)
    ensures var es := EventsOf(db.audit, id);
      && Submits(db.outbox, id) == CountKind(es, OrderRouted) <= 1
      && Cancels(db.outbox, id) == CountKind(es, CancelRequested) <= 1
  {
    hide OrdersInv;
    hide FillsInv;
    hide LedgerInv;
    hide PositionsInv;
    hide IsPath;
  }

  // ---------- an order accepts finitely many events ----------

  /** The number of storage units in a clean quantity. */
  function Units(x: real): int { Nearest(x * 100000000.0) }

  lemma UnitsAreExact(x: real)
    requires Clean(Scale8, x)
    ensures x * 100000000.0 == Units(x) as real
  {
  }

  lemma UnitsDecrease(x: real, q: real)
    requires Clean(Scale8, x) && Clean(Scale8, q) && 0.0 < q <= x
    ensures 0 <= Units(x - q) < Units(x)
  {
    CleanSum(Scale8, x, q);
    UnitsAreExact(x);
    UnitsAreExact(q);
    UnitsAreExact(x - q);
  }

  /** What a broker can still do to an order, in units of 10^-8. */
  function LeftToDo(o: Order): int { if Working(o.status) then Units(o.remaining) else 0 }

  lemma LeftIsNatural(o: Order)
    requires OrderOk(Scale8, o)
    ensures LeftToDo(o) >= 0 && (Working(o.status) ==> LeftToDo(o) > 0)
  {
    if Working(o.status) {
      CleanZero(Scale8);
      UnitsDecrease(o.remaining, o.remaining);
    }
  }

  predicate Applies(db: Db, r: Result, c: Command, id: Uuid) {
    c.Handle? && c.event.orderId == id && r.outcome == Ok(Applied(true))
  }

  lemma FillLowers(o: Order, q: real, p: real)
    requires OrderOk(Scale8, o) && Working(o.status) && 0.0 < q <= o.remaining && Clean(Scale8, q)
    ensures LeftToDo(StoreOrder(Scale8, FillOutcome(o, q, p))) < LeftToDo(o)
  {
    hide Stored;
    UnitsDecrease(o.remaining, q);
    LeftIsNatural(o);
    FillOutcomeRow(Scale8, o, q, p);
    hide OrderOk;
    hide Units;
  }

  /** What each kind of change does to the measure of its order. */
  lemma ChangeLowers(db: Db, c: Command)
    requires Inv(Scale8, db) && OnOneOrder(c) && CleanCommand(Scale8, c) && Subject(c) in db.orders
    requires Judge(Scale8, c, ViewOf(db, c)).Write?
    ensures var v, o := Judge(Scale8, c, ViewOf(db, c)), db.orders[Subject(c)];
      LeftToDo(StoreOrder(Scale8, v.change.order)) + (if v.answer == Applied(true) then 1 else 0) <= LeftToDo(o)
  {
    hide Stored;
    hide Inv;
    hide FillVerdict;
    hide CloseVerdict;
    var id := Subject(c);
    var o := db.orders[id];
    OrderOf(Scale8, db, id);
    LeftIsNatural(o);
    StoreKeepsOrder(Scale8, o);
    if c.Handle? && IsFill(c.event) && GuardFill(o, c.event).Take? {
      FillWrites(Scale8, c.event, ViewOf(db, c));
      FillLowers(o, c.event.quantity, c.event.price.value);
    } else if c.Handle? && CloseVerdictReached(o, c.event) {
      CloseLowers(db, c);
    } else if c.RoutingFailed? {
      assert LeftToDo(StoreOrder(Scale8, RejectedOrder(o, "Broker routing failed: " + c.reason))) == 0;
    }
  }

  predicate CloseVerdictReached(o: Order, e: BrokerEvent) {
    (e.kind.Reject? && o.status.Routed?) || (e.kind.Cancel? && Working(o.status))
  }

  lemma CloseLowers(db: Db, c: Command)
    requires Inv(Scale8, db) && c.Handle? && Subject(c) in db.orders && CloseVerdictReached(db.orders[Subject(c)], c.event)
    requires Judge(Scale8, c, ViewOf(db, c)).Write?
    ensures var v, o := Judge(Scale8, c, ViewOf(db, c)), db.orders[Subject(c)];
      LeftToDo(StoreOrder(Scale8, v.change.order)) == 0 < LeftToDo(o)
  {
    hide Stored;
    hide Inv;
    hide AccountChecks;
    hide OrderChecks;
    hide Release;
    var o := db.orders[Subject(c)];
    OrderOf(Scale8, db, Subject(c));
    LeftIsNatural(o);
    hide Units;
  }

  lemma StepLowers(db: Db, c: Command, id: Uuid)
    requires Inv(Scale8, db) && CleanCommand(Scale8, c) && id in db.orders
    ensures var r := Step(Scale8, db, c);
      && id in r.db.orders
      && LeftToDo(r.db.orders[id]) + (if Applies(db, r, c, id) then 1 else 0) <= LeftToDo(db.orders[id])
  {
    hide Inv;
    hide Judge;
    hide LeftToDo;
    hide StoreOrder;
    if OnOneOrder(c) {
      if Judge(Scale8, c, ViewOf(db, c)).Write? {
        ChangeSubject(Scale8, db, c);
        if Subject(c) == id {
          ChangeLowers(db, c);
        }
      } else {
        NoAnswerWithoutWriting(db, c);
      }
    }
  }

  lemma NoAnswerWithoutWriting(db: Db, c: Command)
    requires OnOneOrder(c) && !Judge(Scale8, c, ViewOf(db, c)).Write?
    ensures Step(Scale8, db, c).outcome != Ok(Applied(true))
  {
    hide Stored;
    hide AccountChecks;
    hide OrderChecks;
    hide PositionChecks;
    hide Execute;
    hide Settle;
    hide Release;
    hide WithFill;
  }

  /** How many events the run applies to an order. */
  ghost function AppliedCount(db: Db, cs: seq<Command>, id: Uuid): nat {
    if cs == [] then 0
    else
      var rest, c := cs[..|cs| - 1], cs[|cs| - 1];
      var before := Run(Scale8, db, rest);
      AppliedCount(db, rest, id) + if Applies(before, Step(Scale8, before, c), c, id) then 1 else 0
  }

  /** Over any run an order accepts at most as many events as it has units of 10^-8 left to fill. */
  lemma {:induction false} FinitelyManyEventsApply(db: Db, cs: seq<Command>, id: Uuid)
    requires Inv(Scale8, db) && CleanRun(Scale8, cs) && id in db.orders
    ensures id in Run(Scale8, db, cs).orders
    ensures 0 <= LeftToDo(Run(Scale8, db, cs).orders[id])
    ensures AppliedCount(db, cs, id) + LeftToDo(Run(Scale8, db, cs).orders[id]) <= LeftToDo(db.orders[id])
  {
    hide Inv;
    hide Step;
    hide LeftToDo;
    if cs != [] {
      var rest := cs[..|cs| - 1];
      FinitelyManyEventsApply(db, rest, id);
      RunKeepsInv(Scale8, db, rest);
      StepLowers(Run(Scale8, db, rest), cs[|cs| - 1], id);
    }
    RunKeepsInv(Scale8, db, cs);
    OrderOf(Scale8, Run(Scale8, db, cs), id);
    LeftIsNatural(Run(Scale8, db, cs).orders[id]);
  }
}
