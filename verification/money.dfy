/** What the invariant says about cash, reservations and profit, over whole runs. */
module Money {
  import opened Types
  import opened Numeric
  import opened Sums
  import opened Tables
  import opened OrderRules
  import opened PositionRules
  import opened History
  import opened Transactions
  import opened Invariant
  import opened Steps
  import InvariantKept

  // ---------- the reservation ledger ----------

  predicate WritesAccount(before: Db, after: Db, a: Uuid) {
    a in before.accounts && a in after.accounts && after.accounts[a].version > before.accounts[a].version
  }

  /** How many committed transactions of the run wrote the account's row. */
  ghost function AccountWrites(m: Storage, db: Db, cs: seq<Command>, a: Uuid): nat {
    if cs == [] then 0
    else
      var rest := cs[..|cs| - 1];
      AccountWrites(m, db, rest, a) + if WritesAccount(Run(m, db, rest), Run(m, db, cs), a) then 1 else 0
  }

  /** One transaction moves an account's drift by at most a half-unit, and only if it writes the account. */
  lemma StepDrift(m: Storage, db: Db, c: Command, a: Uuid)
    requires Inv(m, db) && CleanCommand(m, c) && a in db.accounts
    ensures var db' := Step(m, db, c).db;
      && a in db'.accounts
      && (!WritesAccount(db, db', a) ==> db'.accounts[a] == db.accounts[a] && Drift(db', a) == Drift(db, a))
      && Within(m, Drift(db', a) - Drift(db, a), 1.0)
      && (Drift(db, a) == 0.0 && Clean(m, HeldBy(db'.orders, a)) ==> Drift(db', a) == 0.0)
  {
    hide Inv;
    hide Judge;
    hide GoodChange;
    hide Commit;
    hide Stored;
    hide HeldBy;
    assert Within(m, 0.0, 1.0);
    if OnOneOrder(c) && Judge(m, c, ViewOf(db, c)).Write? {
      var ch := Judge(m, c, ViewOf(db, c)).change;
      WriteIsGood(m, db, c);
      assert OrderPart(m, db, ch) && LedgerPart(m, db, ch) by {
        GoodParts(m, db, ch);
      }
      InvariantKept.DriftStep(m, db, ch, a);
    }
  }

  /** A freshly opened account holds nothing and owes nothing. */
  lemma FreshAccountHasNoDrift(m: Storage, db: Db, c: Command, a: Uuid)
    requires Inv(m, db) && CleanCommand(m, c) && a !in db.accounts && a in Step(m, db, c).db.accounts
    ensures c.Open? && c.accountId == a && Drift(Step(m, db, c).db, a) == 0.0
  {
    hide Inv;
    hide Judge;
    hide GoodChange;
    hide Stored;
    hide OrderPart;
    if OnOneOrder(c) && Judge(m, c, ViewOf(db, c)).Write? {
      WriteIsGood(m, db, c);
      GoodParts(m, db, Judge(m, c, ViewOf(db, c)).change);
    }
    assert c.Open?;
    StepKeepsInv(m, db, c);
    var db' := Step(m, db, c).db;
    assert LedgerInv(m, db') by {
      LedgerOf(m, db');
    }
    assert db'.accounts[a].version == 1;
  }

  lemma LedgerOf(m: Storage, db: Db)
    requires Inv(m, db)
    ensures LedgerInv(m, db)
  {
    hide LedgerInv;
    hide OrdersInv;
    hide FillsInv;
    hide PositionsInv;
    hide AuditInv;
    hide OutboxInv;
  }

  /**
   * The reservation ledger. After any run from the empty database, reserved cash differs from the sum
   * of remaining quantity times price over the account's open buy orders by at most half a unit of
   * 10^-8 per committed transaction that wrote the account; not at all when storage is exact.
   */
  lemma {:induction false} ReservationLedger(m: Storage, cs: seq<Command>, a: Uuid)
    requires CleanRun(m, cs) && a in Run(m, EMPTY, cs).accounts
    ensures Within(m, Drift(Run(m, EMPTY, cs), a), AccountWrites(m, EMPTY, cs, a) as real)
  {
    hide Inv;
    hide Step;
    if cs != [] {
      var rest, c := cs[..|cs| - 1], cs[|cs| - 1];
      var db := Run(m, EMPTY, rest);
      EmptyInv(m);
      RunKeepsInv(m, EMPTY, rest);
      if a in db.accounts {
        ReservationLedger(m, rest, a);
        StepDrift(m, db, c, a);
        WithinSum(m, Drift(db, a), AccountWrites(m, EMPTY, rest, a) as real, Drift(Run(m, EMPTY, cs), a) - Drift(db, a), 1.0);
      } else {
        FreshAccountHasNoDrift(m, db, c, a);
        assert Within(m, 0.0, AccountWrites(m, EMPTY, cs, a) as real);
      }
    }
  }

  /** Exact storage: reserved cash is the held total, in every reachable state. */
  lemma ReservationExact(db: Db, a: Uuid)
    requires Reachable(Exact, db) && a in db.accounts
    ensures db.accounts[a].reserved == HeldBy(db.orders, a) && 0.0 <= HeldBy(db.orders, a) <= db.accounts[a].cash
  {
    hide Inv;
    hide Reachable;
    ReachableInv(Exact, db);
    LedgerOf(Exact, db);
  }

  /** The notional a command brings to an account's ledger, a placed buy's or a fill's share of one, is stored as it is. */
  predicate WholeCommand(m: Storage, db: Db, c: Command, a: Uuid) {
    match c
    case Place(p, _, _) => p.accountId == a && p.side.Buy? ==> Clean(m, Notional(p.quantity, p.price))
    case Handle(e) =>
      IsFill(e) && e.orderId in db.orders && db.orders[e.orderId].accountId == a && db.orders[e.orderId].side.Buy? ==>
        Clean(m, Notional(e.quantity, db.orders[e.orderId].price))
    case _ => true
  }

  ghost predicate WholeRun(m: Storage, cs: seq<Command>, a: Uuid) {
    forall k :: 0 <= k < |cs| ==> WholeCommand(m, Run(m, EMPTY, cs[..k]), cs[k], a)
  }

  /** What every order holds in the account is stored as it is. */
  predicate WholeHeld(m: Storage, orders: map<Uuid, Order>, a: Uuid) {
    forall id :: id in orders ==> Clean(m, Held(orders[id], a))
  }

  lemma {:induction false} CleanTotal<K(!new)>(m: Storage, s: map<K, real>)
    requires forall k :: k in s ==> Clean(m, s[k])
    ensures Clean(m, Sum(s))
    decreases |s|
  {
    hide Stored;
    if s == map[] {
      CleanZero(m);
    } else {
      var k :| k in s;
      assert |s - {k}| < |s|;
      CleanTotal(m, s - {k});
      SumWithout(s, k);
      CleanSum(m, s[k], Sum(s - {k}));
    }
  }

  lemma HeldIsClean(m: Storage, orders: map<Uuid, Order>, a: Uuid)
    requires WholeHeld(m, orders, a)
    ensures Clean(m, HeldBy(orders, a))
  {
    hide Held;
    hide Stored;
    CleanTotal(m, HeldMap(orders, a));
  }

  lemma PlacedHeldIsClean(m: Storage, db: Db, c: Command, a: Uuid)
    requires c.Place? && CleanCommand(m, c) && WholeCommand(m, db, c, a) && Judge(m, c, ViewOf(db, c)).Write?
    ensures Clean(m, Held(StoreOrder(m, Judge(m, c, ViewOf(db, c)).change.order), a))
  {
    var o := Judge(m, c, ViewOf(db, c)).change.order;
    CleanZero(m);
    NewOrderIsClean(m, c.payload, c.expiry);
    StoreKeepsOrder(m, o);
    hide Stored;
    hide AccountChecks;
    hide OrderChecks;
  }

  lemma NotionalSplits(r: real, q: real, p: real)
    ensures Notional(r - q, p) == Notional(r, p) - Notional(q, p)
  {
  }

  lemma FilledHeld(m: Storage, o: Order, q: real, p: real, a: Uuid)
    requires OrderOk(m, o) && Working(o.status) && 0.0 < q <= o.remaining && Clean(m, q)
    ensures var s := StoreOrder(m, FillOutcome(o, q, p));
      Held(s, a) == if o.accountId == a && o.side.Buy? && Working(s.status) then Notional(o.remaining - q, o.price) else 0.0
  {
    FillOutcomeRow(m, o, q, p);
    hide Stored;
    hide OrderOk;
    hide Within;
    hide Notional;
  }

  lemma FilledHeldIsClean(m: Storage, o: Order, q: real, p: real, a: Uuid)
    requires OrderOk(m, o) && Working(o.status) && 0.0 < q <= o.remaining && Clean(m, q)
    requires Clean(m, Held(o, a)) && (o.accountId == a && o.side.Buy? ==> Clean(m, Notional(q, o.price)))
    ensures Clean(m, Held(StoreOrder(m, FillOutcome(o, q, p)), a))
  {
    CleanZero(m);
    FilledHeld(m, o, q, p, a);
    NotionalSplits(o.remaining, q, o.price);
    hide Notional;
    hide OrderOk;
    hide FillOutcome;
    hide StoreOrder;
    if o.accountId == a && o.side.Buy? {
      CleanSum(m, Notional(o.remaining, o.price), Notional(q, o.price));
    }
    hide Stored;
  }

  lemma ClosedHeldIsClean(m: Storage, o: Order, closed: Order, a: Uuid)
    requires OrderOk(m, o) && Working(o.status) && Closes(o, closed)
    ensures Clean(m, Held(StoreOrder(m, closed), a))
  {
    CleanZero(m);
    ClosedRow(m, o, closed);
    hide Stored;
    hide OrderOk;
  }

  lemma HandledHeldIsClean(m: Storage, db: Db, e: BrokerEvent, a: Uuid)
    requires Inv(m, db) && CleanCommand(m, Handle(e)) && WholeCommand(m, db, Handle(e), a) && WholeHeld(m, db.orders, a)
    requires HandleVerdict(m, e, ViewOf(db, Handle(e))).Write?
    ensures e.orderId in db.orders
    ensures Clean(m, Held(StoreOrder(m, HandleVerdict(m, e, ViewOf(db, Handle(e))).change.order), a))
  {
    hide Inv;
    hide Stored;
    hide FillVerdict;
    hide CloseVerdict;
    hide Held;
    var o, v := db.orders[e.orderId], ViewOf(db, Handle(e));
    OrderOf(m, db, e.orderId);
    StoreKeepsOrder(m, o);
    hide OrderOk;
    if IsFill(e) && GuardFill(o, e).Take? {
      FillWrites(m, e, v);
      FilledHeldIsClean(m, o, e.quantity, e.price.value, a);
    } else if e.kind.Reject? && o.status.Routed? {
      var closed := RejectedOrder(o, ReasonOr(e, "Rejected by broker"));
      CloseWrites(m, e, v, closed, OrderRejected);
      ClosedHeldIsClean(m, o, closed, a);
    } else if e.kind.Cancel? && Working(o.status) {
      CloseWrites(m, e, v, CancelledOrder(o), OrderCancelled);
      ClosedHeldIsClean(m, o, CancelledOrder(o), a);
    }
  }

  lemma OtherHeldIsClean(m: Storage, db: Db, c: Command, a: Uuid)
    requires Inv(m, db) && (c.RoutingFailed? || c.RequestCancel?) && WholeHeld(m, db.orders, a)
    requires Judge(m, c, ViewOf(db, c)).Write?
    ensures Clean(m, Held(StoreOrder(m, Judge(m, c, ViewOf(db, c)).change.order), a))
  {
    hide Inv;
    var o := db.orders[c.orderId];
    OrderOf(m, db, c.orderId);
    if c.RoutingFailed? {
      ClosedHeldIsClean(m, o, RejectedOrder(o, "Broker routing failed: " + c.reason), a);
    } else {
      PendingRow(m, o);
    }
    hide Stored;
    hide OrderOk;
    hide AccountChecks;
  }

  /** A whole command keeps every holding of the account whole. */
  lemma HeldStaysWhole(m: Storage, db: Db, c: Command, a: Uuid)
    requires Inv(m, db) && CleanCommand(m, c) && WholeCommand(m, db, c, a) && WholeHeld(m, db.orders, a)
    ensures WholeHeld(m, Step(m, db, c).db.orders, a)
  {
    hide Inv;
    hide Stored;
    hide Held;
    hide Judge;
    if OnOneOrder(c) && Judge(m, c, ViewOf(db, c)).Write? {
      assert Clean(m, Held(StoreOrder(m, Judge(m, c, ViewOf(db, c)).change.order), a)) by {
        match c
        case Place(_, _, _) => PlacedHeldIsClean(m, db, c, a);
        case Handle(e) => JudgeHandles(m, db, e); HandledHeldIsClean(m, db, e, a);
        case _ => OtherHeldIsClean(m, db, c, a);
      }
      hide StoreOrder;
    }
  }

  lemma JudgeHandles(m: Storage, db: Db, e: BrokerEvent)
    ensures Judge(m, Handle(e), ViewOf(db, Handle(e))) == HandleVerdict(m, e, ViewOf(db, Handle(e)))
  {
  }

  /** When every notional an account's ledger sees is stored as it is, rounding never moves the ledger. */
  lemma {:induction false} ReservationWithoutDrift(m: Storage, cs: seq<Command>, a: Uuid)
    requires CleanRun(m, cs) && WholeRun(m, cs, a)
    ensures WholeHeld(m, Run(m, EMPTY, cs).orders, a)
    ensures a in Run(m, EMPTY, cs).accounts ==> Drift(Run(m, EMPTY, cs), a) == 0.0
  {
    hide Inv;
    hide Step;
    hide WholeCommand;
    hide WholeHeld;
    if cs == [] {
      NothingHeld(m, a);
    } else {
      var rest, c := cs[..|cs| - 1], cs[|cs| - 1];
      var db := Run(m, EMPTY, rest);
      EmptyInv(m);
      RunKeepsInv(m, EMPTY, rest);
      assert WholeRun(m, rest, a) by {
        forall k | 0 <= k < |rest| ensures WholeCommand(m, Run(m, EMPTY, rest[..k]), rest[k], a) {
          assert rest[..k] == cs[..k] && rest[k] == cs[k];
        }
      }
      ReservationWithoutDrift(m, rest, a);
      HeldStaysWhole(m, db, c, a);
      if a in db.accounts {
        StepDrift(m, db, c, a);
        HeldIsClean(m, Run(m, EMPTY, cs).orders, a);
      } else if a in Run(m, EMPTY, cs).accounts {
        FreshAccountHasNoDrift(m, db, c, a);
      }
    }
  }

  lemma NothingHeld(m: Storage, a: Uuid)
    ensures WholeHeld(m, EMPTY.orders, a)
  {
  }

  // ---------- cash, positions and profit ----------

  ghost function InvestedMap(positions: map<PositionKey, Position>, a: Uuid): map<PositionKey, real> {
    map k | k in positions :: if k.accountId == a then Invested(BookOf(Some(positions[k]))) else 0.0
  }

  /** Cash plus what the positions have cost, net of realized profit. */
  ghost function Equity(db: Db, a: Uuid): real
    requires a in db.accounts
  {
    db.accounts[a].cash + Sum(InvestedMap(db.positions, a))
  }

  /** The weight of one committed fill in the account's storage error: cash, realized, and |net| for the average. */
  function FillWeight(before: Db, after: Db, a: Uuid): real {
    if |after.fills| <= |before.fills| then 0.0
    else
      var f := after.fills[|after.fills| - 1];
      if f.orderId !in after.orders || after.orders[f.orderId].accountId != a then 0.0
      else 2.0 + Abs(BookOf(Lookup(after.positions, after.orders[f.orderId].Key())).net)
  }

  lemma InvestedUpdate(positions: map<PositionKey, Position>, k: PositionKey, p: Position, a: Uuid)
    ensures Sum(InvestedMap(positions[k := p], a)) ==
      Sum(InvestedMap(positions, a)) +
      (if k.accountId == a then Invested(BookOf(Some(p))) - Invested(BookOf(Lookup(positions, k))) else 0.0)
  {
    var v := if k.accountId == a then Invested(BookOf(Some(p))) else 0.0;
    assert InvestedMap(positions[k := p], a) == InvestedMap(positions, a)[k := v];
    SumUpdate(InvestedMap(positions, a), k, v);
  }

  lemma ElsewhereKeepsEquity(m: Storage, db: Db, c: Change, a: Uuid)
    requires a in db.accounts && c.order.accountId != a
    requires c.fill.Some? ==> c.fill.value.orderId == c.orderId
    ensures var db' := Commit(m, db, c);
      a in db'.accounts && Equity(db', a) == Equity(db, a) && FillWeight(db, db', a) == 0.0
  {
    hide Stored;
    if c.position.Some? {
      InvestedUpdate(db.positions, c.order.Key(), StorePosition(m, c.position.value), a);
    }
  }

  lemma FillKeepsEquity(m: Storage, db: Db, c: Change)
    requires PositionsInv(m, db) && FillsInv(m, db)
    requires LedgerPart(m, db, c) && FillPart(m, db, c) && PositionPart(m, db, c)
    requires c.fill.Some? && Clean(m, c.fill.value.quantity)
    ensures var db', a := Commit(m, db, c), c.order.accountId;
      a in db'.accounts && Within(m, Equity(db', a) - Equity(db, a), FillWeight(db, db', a))
  {
    hide Round8;
    hide AfterFill;
    hide Invested;
    hide PositionsInv;
    hide FillsInv;
    hide ValueFilled;
    var db', a, k := Commit(m, db, c), c.order.accountId, c.order.Key();
    var b, t, p := BookOf(Lookup(db.positions, k)), AsTrade(c.order, c.fill.value), StorePosition(m, c.position.value);
    InvariantKept.NetIsClean(m, db, k);
    StoredFillDrift(m, b, t);
    InvestedUpdate(db.positions, k, p, a);
    assert BookOf(Some(p)) == StoredBook(m, AfterFill(b, t));
    var cash := c.account.value.cash;
    var invested := Invested(BookOf(Some(p))) - Invested(b);
    WithinSum(m, Stored(m, cash) - cash, 1.0, invested - t.Flow(), 1.0 + Abs(p.net));
    assert Equity(db', a) - Equity(db, a) == Stored(m, cash) - cash + (invested - t.Flow());
    assert FillWeight(db, db', a) == 2.0 + Abs(p.net);
  }

  lemma QuietKeepsEquity(m: Storage, db: Db, c: Change)
    requires LedgerInv(m, db) && LedgerPart(m, db, c) && c.fill.None? && c.position.None?
    ensures var db', a := Commit(m, db, c), c.order.accountId;
      a in db'.accounts && Equity(db', a) == Equity(db, a) && FillWeight(db, db', a) == 0.0
  {
    hide Stored;
    hide Held;
  }

  /** A committed change keeps an account's equity, up to the weight of its fill. */
  lemma ChangeKeepsEquity(m: Storage, db: Db, c: Change, a: Uuid)
    requires Inv(m, db) && GoodChange(m, db, c) && a in db.accounts
    requires c.fill.Some? ==> Clean(m, c.fill.value.quantity)
    ensures var db' := Commit(m, db, c);
      a in db'.accounts && Within(m, Equity(db', a) - Equity(db, a), FillWeight(db, db', a))
  {
    hide Commit;
    hide Equity;
    hide LedgerPart;
    hide PositionPart;
    hide LedgerInv;
    hide PositionsInv;
    hide FillsInv;
    if c.order.accountId != a {
      ElsewhereKeepsEquity(m, db, c, a);
    } else if c.fill.Some? {
      FillKeepsEquity(m, db, c);
    } else {
      QuietKeepsEquity(m, db, c);
    }
  }

  lemma OtherStepsKeepEquity(m: Storage, db: Db, c: Command, a: Uuid)
    requires !OnOneOrder(c) && a in db.accounts
    ensures var db' := Step(m, db, c).db;
      a in db'.accounts && Equity(db', a) == Equity(db, a) && FillWeight(db, db', a) == 0.0
  {
    hide Stored;
    hide Sum;
    hide Invested;
    hide Unrealized;
    hide AccountChecks;
    assert InvestedMap(Step(m, db, c).db.positions, a) == InvestedMap(db.positions, a);
  }

  lemma StepKeepsEquity(m: Storage, db: Db, c: Command, a: Uuid)
    requires Inv(m, db) && CleanCommand(m, c) && a in db.accounts
    ensures var db' := Step(m, db, c).db;
      a in db'.accounts && Within(m, Equity(db', a) - Equity(db, a), FillWeight(db, db', a))
  {
    hide Inv;
    hide Judge;
    hide GoodChange;
    hide Commit;
    hide Equity;
    assert Within(m, 0.0, 0.0);
    if !OnOneOrder(c) {
      OtherStepsKeepEquity(m, db, c, a);
    } else if Judge(m, c, ViewOf(db, c)).Write? {
      WriteIsGood(m, db, c);
      ChangeKeepsEquity(m, db, Judge(m, c, ViewOf(db, c)).change, a);
    }
  }

  ghost function EquityBudget(m: Storage, db: Db, cs: seq<Command>, a: Uuid): real {
    if cs == [] then 0.0
    else
      var rest := cs[..|cs| - 1];
      EquityBudget(m, db, rest, a) + FillWeight(Run(m, db, rest), Run(m, db, cs), a)
  }

  /**
   * Over any run, cash + sum(net * average) - sum(realized) stays what it was, up to the weight of the
   * fills in half-units of storage: exactly, when storage is exact.
   */
  lemma {:induction false} EquityOverRuns(m: Storage, db: Db, cs: seq<Command>, a: Uuid)
    requires Inv(m, db) && CleanRun(m, cs) && a in db.accounts
    ensures a in Run(m, db, cs).accounts
    ensures Within(m, Equity(Run(m, db, cs), a) - Equity(db, a), EquityBudget(m, db, cs, a))
  {
    hide Inv;
    hide Step;
    hide Equity;
    if cs == [] {
      assert Within(m, 0.0, 0.0);
    } else {
      var rest, c := cs[..|cs| - 1], cs[|cs| - 1];
      EquityOverRuns(m, db, rest, a);
      RunKeepsInv(m, db, rest);
      StepKeepsEquity(m, Run(m, db, rest), c, a);
      WithinSum(m, Equity(Run(m, db, rest), a) - Equity(db, a), EquityBudget(m, db, rest, a),
                Equity(Run(m, db, cs), a) - Equity(Run(m, db, rest), a), FillWeight(Run(m, db, rest), Run(m, db, cs), a));
    }
  }

  // ---------- the account summary ----------

  datatype Summary = Summary(realized: real, unrealized: real, total: real)

  function RealizedTotal(ps: seq<Position>): real {
    if ps == [] then 0.0 else RealizedTotal(ps[..|ps| - 1]) + ps[|ps| - 1].realized
  }

  function UnrealizedTotal(ps: seq<Position>): real {
    if ps == [] then 0.0 else UnrealizedTotal(ps[..|ps| - 1]) + ps[|ps| - 1].unrealized
  }

  function AccountSummary(ps: seq<Position>): Summary {
    Summary(RealizedTotal(ps), UnrealizedTotal(ps), RealizedTotal(ps) + UnrealizedTotal(ps))
  }

  /** The holdings valued at their marks. */
  function Holdings(ps: seq<Position>): real {
    if ps == [] then 0.0
    else Holdings(ps[..|ps| - 1]) + (if ps[|ps| - 1].mark.Some? then ps[|ps| - 1].mark.value * ps[|ps| - 1].net else 0.0)
  }

  function Rows(positions: map<PositionKey, Position>, keys: seq<PositionKey>): (r: seq<Position>)
    requires forall i :: 0 <= i < |keys| ==> keys[i] in positions
    ensures |r| == |keys|
    ensures forall i :: 0 <= i < |keys| ==> r[i] == positions[keys[i]]
  {
    if keys == [] then []
    else Rows(positions, keys[..|keys| - 1]) + [positions[keys[|keys| - 1]]]
  }

  /** The keys enumerate the account's positions without repetition. */
  predicate Lists(positions: map<PositionKey, Position>, a: Uuid, keys: seq<PositionKey>) {
    && (forall i :: 0 <= i < |keys| ==> keys[i] in positions && keys[i].accountId == a)
    && (forall i, j :: 0 <= i < j < |keys| ==> keys[i] != keys[j])
    && (forall k :: k in positions && k.accountId == a ==> k in keys)
  }

  lemma {:induction false} RowsElsewhere(positions: map<PositionKey, Position>, k: PositionKey, keys: seq<PositionKey>)
    requires forall i :: 0 <= i < |keys| ==> keys[i] in positions && keys[i] != k
    ensures Rows(positions - {k}, keys) == Rows(positions, keys)
  {
    if keys != [] {
      RowsElsewhere(positions, k, keys[..|keys| - 1]);
    }
  }

  /** How far rounding can put the shown profit of the positions from their marks, in half-units. */
  function MarkWeight(ps: seq<Position>): real {
    if ps == [] then 0.0 else MarkWeight(ps[..|ps| - 1]) + 1.0 + Abs(ps[|ps| - 1].net)
  }

  lemma SummaryOfOne(m: Storage, p: Position)
    requires MarkedAt(m, p)
    ensures Within(m, p.realized + p.unrealized - (p.mark.value * p.net - Invested(BookOf(Some(p)))), 1.0 + Abs(p.net))
  {
    var b := BookOf(Some(p));
    TotalPnlFromFlow(b, p.mark.value);
    assert TotalPnl(b, p.mark.value) == p.realized + Unrealized(p.net, p.average, p.mark);
    hide Invested;
    hide Unrealized;
    hide TotalPnl;
  }

  lemma InvestedWithout(positions: map<PositionKey, Position>, k: PositionKey)
    requires k in positions
    ensures Sum(InvestedMap(positions, k.accountId)) ==
      Invested(BookOf(Some(positions[k]))) + Sum(InvestedMap(positions - {k}, k.accountId))
  {
    hide Invested;
    SumWithout(InvestedMap(positions, k.accountId), k);
    assert InvestedMap(positions, k.accountId) - {k} == InvestedMap(positions - {k}, k.accountId);
  }

  lemma SummarySnoc(m: Storage, ps: seq<Position>, p: Position)
    requires MarkedAt(m, p)
    ensures Within(m, (AccountSummary(ps + [p]).total - Holdings(ps + [p])) -
                      (AccountSummary(ps).total - Holdings(ps) - Invested(BookOf(Some(p)))), 1.0 + Abs(p.net))
    ensures MarkWeight(ps + [p]) == MarkWeight(ps) + 1.0 + Abs(p.net)
  {
    SummaryOfOne(m, p);
    assert (ps + [p])[..|ps + [p]| - 1] == ps;
    hide Invested;
    hide Within;
  }

  lemma ListsWithout(positions: map<PositionKey, Position>, a: Uuid, keys: seq<PositionKey>)
    requires Lists(positions, a, keys) && keys != []
    ensures var k, rest := keys[|keys| - 1], keys[..|keys| - 1];
      && k in positions && k.accountId == a
      && Lists(positions - {k}, a, rest)
      && (forall i :: 0 <= i < |rest| ==> rest[i] in positions && rest[i] != k)
      && (forall i :: 0 <= i < |rest| ==> rest[i] in positions - {k})
  {
    var k, rest := keys[|keys| - 1], keys[..|keys| - 1];
    forall j | j in positions - {k} && j.accountId == a ensures j in rest {
      assert j in keys;
    }
  }

  lemma MoreRows(m: Storage, ps: seq<Position>, p: Position, invested: real)
    requires MarkedAt(m, p)
    requires Within(m, AccountSummary(ps).total - Holdings(ps) + invested, MarkWeight(ps))
    ensures Within(m, AccountSummary(ps + [p]).total - Holdings(ps + [p]) + (invested + Invested(BookOf(Some(p)))), MarkWeight(ps + [p]))
  {
    SummarySnoc(m, ps, p);
    var x, y := AccountSummary(ps).total - Holdings(ps), AccountSummary(ps + [p]).total - Holdings(ps + [p]);
    WithinSum(m, x + invested, MarkWeight(ps), y - (x - Invested(BookOf(Some(p)))), 1.0 + Abs(p.net));
    assert x + invested + (y - (x - Invested(BookOf(Some(p))))) == y + (invested + Invested(BookOf(Some(p))));
    assert MarkWeight(ps) + (1.0 + Abs(p.net)) == MarkWeight(ps + [p]);
    hide Within;
    hide Invested;
    hide MarkWeight;
    hide Abs;
    hide AccountSummary;
    hide Holdings;
  }

  /**
   * The summary's total is the holdings at their marks minus what the positions have cost, up to 1 + |net|
   * half-units of storage per position: exactly, when storage is exact.
   */
  lemma {:induction false} SummaryAgainstInvested(m: Storage, positions: map<PositionKey, Position>, a: Uuid, keys: seq<PositionKey>)
    requires Lists(positions, a, keys)
    requires forall k :: k in positions ==> MarkedAt(m, positions[k])
    ensures var rows := Rows(positions, keys);
      Within(m, AccountSummary(rows).total - Holdings(rows) + Sum(InvestedMap(positions, a)), MarkWeight(rows))
    decreases |keys|
  {
    hide Invested;
    hide InvestedMap;
    hide MarkedAt;
    hide AccountSummary;
    hide Holdings;
    hide MarkWeight;
    hide Within;
    if keys == [] {
      NothingListed(m, positions, a);
    } else {
      var k, rest := keys[|keys| - 1], keys[..|keys| - 1];
      ListsWithout(positions, a, keys);
      hide Lists;
      SummaryAgainstInvested(m, positions - {k}, a, rest);
      RowsSnoc(positions, keys);
      hide Rows;
      InvestedWithout(positions, k);
      MoreRows(m, Rows(positions - {k}, rest), positions[k], Sum(InvestedMap(positions - {k}, a)));
    }
  }

  ghost function RealizedMap(positions: map<PositionKey, Position>, a: Uuid): map<PositionKey, real> {
    map k | k in positions && k.accountId == a :: positions[k].realized
  }

  ghost function UnrealizedMap(positions: map<PositionKey, Position>, a: Uuid): map<PositionKey, real> {
    map k | k in positions && k.accountId == a :: positions[k].unrealized
  }

  function MadeAtMark(p: Position): real { if p.mark.Some? then Notional(p.mark.value - p.average, p.net) else 0.0 }

  /** What each position of the account makes at its mark. */
  ghost function MarkedMap(positions: map<PositionKey, Position>, a: Uuid): map<PositionKey, real> {
    map k | k in positions && k.accountId == a :: MadeAtMark(positions[k])
  }

  /** Each column of the summary is the sum of that column over the account's positions, however they are listed. */
  lemma {:induction false} SummaryColumns(positions: map<PositionKey, Position>, a: Uuid, keys: seq<PositionKey>)
    requires Lists(positions, a, keys)
    ensures var s := AccountSummary(Rows(positions, keys));
      && s.realized == Sum(RealizedMap(positions, a))
      && s.unrealized == Sum(UnrealizedMap(positions, a))
      && s.total == Sum(RealizedMap(positions, a)) + Sum(UnrealizedMap(positions, a))
    decreases |keys|
  {
    hide RealizedMap;
    hide UnrealizedMap;
    hide AccountSummary;
    if keys == [] {
      NothingSummed(positions, a);
    } else {
      var k, rest := keys[|keys| - 1], keys[..|keys| - 1];
      ListsWithout(positions, a, keys);
      hide Lists;
      SummaryColumns(positions - {k}, a, rest);
      RowsSnoc(positions, keys);
      hide Rows;
      ColumnsWithout(positions, k);
      SummaryGrows(Rows(positions - {k}, rest), positions[k]);
    }
  }

  lemma NothingSummed(positions: map<PositionKey, Position>, a: Uuid)
    requires Lists(positions, a, [])
    ensures Sum(RealizedMap(positions, a)) == 0.0 && Sum(UnrealizedMap(positions, a)) == 0.0
    ensures AccountSummary([]) == Summary(0.0, 0.0, 0.0)
  {
    NoneListed(positions, a);
    assert RealizedMap(positions, a) == map[] && UnrealizedMap(positions, a) == map[];
  }

  lemma NoneListed(positions: map<PositionKey, Position>, a: Uuid)
    requires Lists(positions, a, [])
    ensures forall k :: k in positions ==> k.accountId != a
  {
  }

  lemma ColumnsWithout(positions: map<PositionKey, Position>, k: PositionKey)
    requires k in positions
    ensures var a, less := k.accountId, positions - {k};
      && Sum(RealizedMap(positions, a)) == positions[k].realized + Sum(RealizedMap(less, a))
      && Sum(UnrealizedMap(positions, a)) == positions[k].unrealized + Sum(UnrealizedMap(less, a))
      && Sum(MarkedMap(positions, a)) == MadeAtMark(positions[k]) + Sum(MarkedMap(less, a))
  {
    var a, less := k.accountId, positions - {k};
    hide Notional;
    SumWithout(RealizedMap(positions, a), k);
    SumWithout(UnrealizedMap(positions, a), k);
    SumWithout(MarkedMap(positions, a), k);
    assert RealizedMap(positions, a) - {k} == RealizedMap(less, a);
    assert UnrealizedMap(positions, a) - {k} == UnrealizedMap(less, a);
    assert MarkedMap(positions, a) - {k} == MarkedMap(less, a);
  }

  lemma SummaryGrows(ps: seq<Position>, p: Position)
    ensures var s, t := AccountSummary(ps), AccountSummary(ps + [p]);
      && t.realized == s.realized + p.realized && t.unrealized == s.unrealized + p.unrealized
      && t.total == s.total + p.realized + p.unrealized
  {
    assert (ps + [p])[..|ps + [p]| - 1] == ps;
  }

  function MadeTotal(ps: seq<Position>): real {
    if ps == [] then 0.0 else MadeTotal(ps[..|ps| - 1]) + MadeAtMark(ps[|ps| - 1])
  }

  lemma {:induction false} MadeListed(positions: map<PositionKey, Position>, a: Uuid, keys: seq<PositionKey>)
    requires Lists(positions, a, keys)
    ensures MadeTotal(Rows(positions, keys)) == Sum(MarkedMap(positions, a))
    decreases |keys|
  {
    hide MadeAtMark;
    hide Lists;
    hide MarkedMap;
    hide RealizedMap;
    hide UnrealizedMap;
    if keys == [] {
      NothingMade(positions, a);
    } else {
      var k, rest := keys[|keys| - 1], keys[..|keys| - 1];
      ListsKnown(positions, a, keys);
      ListsWithout(positions, a, keys);
      MadeListed(positions - {k}, a, rest);
      RowsSnoc(positions, keys);
      hide Rows;
      ColumnsWithout(positions, k);
      var rows := Rows(positions - {k}, rest);
      assert (rows + [positions[k]])[..|rows + [positions[k]]| - 1] == rows;
    }
  }

  lemma NothingMade(positions: map<PositionKey, Position>, a: Uuid)
    requires Lists(positions, a, [])
    ensures Sum(MarkedMap(positions, a)) == 0.0
  {
    NoneListed(positions, a);
    assert MarkedMap(positions, a) == map[];
  }

  lemma ListsKnown(positions: map<PositionKey, Position>, a: Uuid, keys: seq<PositionKey>)
    requires Lists(positions, a, keys)
    ensures forall i :: 0 <= i < |keys| ==> keys[i] in positions
  {
  }

  lemma RowsMarked(m: Storage, positions: map<PositionKey, Position>, keys: seq<PositionKey>)
    requires forall i :: 0 <= i < |keys| ==> keys[i] in positions
    requires forall k :: k in positions ==> MarkedAt(m, positions[k])
    ensures forall i :: 0 <= i < |keys| ==> MarkedAt(m, Rows(positions, keys)[i])
  {
    hide MarkedAt;
  }

  lemma {:induction false} RowsAtMarks(m: Storage, ps: seq<Position>)
    requires forall i :: 0 <= i < |ps| ==> MarkedAt(m, ps[i])
    ensures Within(m, UnrealizedTotal(ps) - MadeTotal(ps), MarkWeight(ps))
  {
    hide MarkedAt;
    if ps != [] {
      var rest, p := ps[..|ps| - 1], ps[|ps| - 1];
      RowsAtMarks(m, rest);
      MadeIsUnrealized(m, p);
      hide MadeAtMark;
      WithinSum(m, UnrealizedTotal(rest) - MadeTotal(rest), MarkWeight(rest), p.unrealized - MadeAtMark(p), 1.0 + Abs(p.net));
      assert MarkWeight(ps) == MarkWeight(rest) + (1.0 + Abs(p.net));
      hide Abs;
      assert UnrealizedTotal(rest) - MadeTotal(rest) + (p.unrealized - MadeAtMark(p)) == UnrealizedTotal(ps) - MadeTotal(ps);
      hide Within;
    }
  }

  /** The unrealized column is what the positions make at their marks, up to 1 + |net| half-units for each. */
  lemma UnrealizedAtMarks(m: Storage, positions: map<PositionKey, Position>, a: Uuid, keys: seq<PositionKey>)
    requires Lists(positions, a, keys)
    requires forall k :: k in positions ==> MarkedAt(m, positions[k])
    ensures var rows := Rows(positions, keys);
      Within(m, AccountSummary(rows).unrealized - Sum(MarkedMap(positions, a)), MarkWeight(rows))
  {
    hide MarkedAt;
    hide Within;
    hide MarkedMap;
    hide MarkWeight;
    hide Lists;
    ListsKnown(positions, a, keys);
    MadeListed(positions, a, keys);
    RowsMarked(m, positions, keys);
    hide Rows;
    RowsAtMarks(m, Rows(positions, keys));
  }

  lemma MadeIsUnrealized(m: Storage, p: Position)
    requires MarkedAt(m, p)
    ensures Within(m, p.unrealized - MadeAtMark(p), 1.0 + Abs(p.net))
  {
    assert Unrealized(p.net, p.average, p.mark) == MadeAtMark(p);
    hide Unrealized;
    hide MadeAtMark;
  }

  lemma NothingListed(m: Storage, positions: map<PositionKey, Position>, a: Uuid)
    requires Lists(positions, a, [])
    ensures Within(m, AccountSummary([]).total - Holdings([]) + Sum(InvestedMap(positions, a)), MarkWeight([]))
  {
    hide Invested;
    SumOfZeros(InvestedMap(positions, a));
  }

  lemma RowsSnoc(positions: map<PositionKey, Position>, keys: seq<PositionKey>)
    requires keys != [] && (forall i :: 0 <= i < |keys| ==> keys[i] in positions)
    requires forall i :: 0 <= i < |keys| - 1 ==> keys[i] != keys[|keys| - 1]
    ensures var k, rest := keys[|keys| - 1], keys[..|keys| - 1];
      && (forall i :: 0 <= i < |rest| ==> rest[i] in positions - {k})
      && Rows(positions, keys) == Rows(positions - {k}, rest) + [positions[k]]
  {
    RowsElsewhere(positions, keys[|keys| - 1], keys[..|keys| - 1]);
  }

  lemma NoPositionsYet(m: Storage, db: Db, c: Command, a: Uuid)
    requires Inv(m, db) && c.Open? && c.accountId == a && Step(m, db, c).outcome.Ok?
    ensures a in Step(m, db, c).db.accounts && Equity(Step(m, db, c).db, a) == Stored(m, c.cash)
  {
    hide IsReplay;
    hide MarkedAt;
    hide OrdersInv;
    hide FillsInv;
    hide LedgerInv;
    hide AuditInv;
    hide OutboxInv;
    hide Stored;
    assert forall k :: k in db.positions ==> k.accountId in db.accounts;
    SumOfZeros(InvestedMap(db.positions, a));
  }

  /**
   * Cash plus the holdings at their marks is the stored opening balance plus the total profit the summary
   * reports, after any run following the opening of the account: exactly in exact storage, and up to the
   * weight of the fills and of the marks in half-units otherwise.
   */
  lemma EquityWithRounding(m: Storage, db: Db, opening: Command, cs: seq<Command>, a: Uuid, keys: seq<PositionKey>)
    requires Inv(m, db) && opening.Open? && opening.accountId == a && Step(m, db, opening).outcome.Ok?
    requires CleanRun(m, cs) && Lists(Run(m, Step(m, db, opening).db, cs).positions, a, keys)
    ensures var start := Step(m, db, opening).db; var after := Run(m, start, cs); var rows := Rows(after.positions, keys);
      && a in after.accounts
      && Within(m, after.accounts[a].cash + Holdings(rows) - Stored(m, opening.cash) - AccountSummary(rows).total,
                EquityBudget(m, start, cs, a) + MarkWeight(rows))
  {
    hide Inv;
    hide Step;
    hide Run;
    hide AccountSummary;
    hide Holdings;
    hide MarkWeight;
    hide EquityBudget;
    hide Stored;
    hide Within;
    hide Lists;
    var start := Step(m, db, opening).db;
    assert CleanCommand(m, opening);
    NoPositionsYet(m, db, opening, a);
    StepKeepsInv(m, db, opening);
    EquityOverRuns(m, start, cs, a);
    RunKeepsInv(m, start, cs);
    var after := Run(m, start, cs);
    MarksOf(m, after);
    SummaryAgainstInvested(m, after.positions, a, keys);
    assert Lists(after.positions, a, keys);
    RowsListed(after.positions, a, keys);
    var rows := Rows(after.positions, keys);
    WithinSum(m, Equity(after, a) - Equity(start, a), EquityBudget(m, start, cs, a),
              AccountSummary(rows).total - Holdings(rows) + Sum(InvestedMap(after.positions, a)), MarkWeight(rows));
  }

  lemma RowsListed(positions: map<PositionKey, Position>, a: Uuid, keys: seq<PositionKey>)
    requires Lists(positions, a, keys)
    ensures forall i :: 0 <= i < |keys| ==> keys[i] in positions
  {
  }

  /** In exact storage the identity has no error, in every state reachable from the opening of the account. */
  lemma EquityIdentity(db: Db, opening: Command, after: Db, a: Uuid, keys: seq<PositionKey>)
    requires Reachable(Exact, db) && opening.Open? && opening.accountId == a && Step(Exact, db, opening).outcome.Ok?
    requires Leads(Exact, Step(Exact, db, opening).db, after) && Lists(after.positions, a, keys)
    ensures a in after.accounts
    ensures after.accounts[a].cash + Holdings(Rows(after.positions, keys)) ==
      opening.cash + AccountSummary(Rows(after.positions, keys)).total
  {
    hide Inv;
    hide Step;
    hide Run;
    hide Leads;
    hide AccountSummary;
    hide Holdings;
    hide MarkWeight;
    hide EquityBudget;
    ReachableInv(Exact, db);
    var cs := RunBetween(Exact, Step(Exact, db, opening).db, after);
    EquityWithRounding(Exact, db, opening, cs, a, keys);
  }

  lemma MarksOf(m: Storage, db: Db)
    requires Inv(m, db)
    ensures forall k :: k in db.positions ==> MarkedAt(m, db.positions[k])
  {
    hide LedgerInv;
    hide OrdersInv;
    hide FillsInv;
    hide AuditInv;
    hide OutboxInv;
    hide MarkedAt;
    hide IsReplay;
  }

  // ---------- the average fill price ----------

  lemma ScaleOrder(f: real, x: real, y: real)
    requires f > 0.0
    ensures f * x <= f * y <==> x <= y
  {
    SignOfProduct(f, x - y);
    assert f * (x - y) == f * x - f * y;
  }

  lemma BoundsAdd(lo: real, hi: real, total: real, value: real, q: real, p: real)
    requires q > 0.0 && lo <= p <= hi && Notional(total, lo) <= value <= Notional(total, hi)
    ensures Notional(total + q, lo) <= value + Notional(q, p) <= Notional(total + q, hi)
  {
    ScaleOrder(q, lo, p);
    ScaleOrder(q, p, hi);
    Distribute(lo, total, q);
    Distribute(hi, total, q);
  }

  lemma {:induction false} ValueBetween(fs: seq<Fill>, lo: real, hi: real)
    requires forall i :: 0 <= i < |fs| ==> fs[i].quantity > 0.0 && lo <= fs[i].price <= hi
    ensures Notional(QuantityOf(fs), lo) <= ValueOf(fs) <= Notional(QuantityOf(fs), hi)
  {
    if fs != [] {
      var rest, last := fs[..|fs| - 1], fs[|fs| - 1];
      ValueBetween(rest, lo, hi);
      BoundsAdd(lo, hi, QuantityOf(rest), ValueOf(rest), last.quantity, last.price);
      hide Notional;
    }
  }

  lemma FillsBetween(m: Storage, db: Db, id: Uuid, lo: real, hi: real)
    requires FillsInv(m, db)
    requires forall i :: 0 <= i < |db.fills| && db.fills[i].orderId == id ==> lo <= db.fills[i].price <= hi
    ensures var fs := FillsOf(db.fills, id);
      forall i :: 0 <= i < |fs| ==> fs[i].quantity > 0.0 && lo <= fs[i].price <= hi
  {
    hide TotalsAgree;
    hide Stored;
    var fs := FillsOf(db.fills, id);
    FillsOfMember(db.fills, id);
    forall i | 0 <= i < |fs| ensures fs[i].quantity > 0.0 && lo <= fs[i].price <= hi {
      var j :| 0 <= j < |db.fills| && db.fills[j] == fs[i];
      assert FillRowOk(m, db, db.fills[j]);
    }
  }

  /**
   * The average fill price times the filled quantity is the value of the order's fill rows, up to one
   * half-unit per filled unit and per fill; with exact storage it lies between the extreme fill prices.
   */
  lemma AverageFillPrice(m: Storage, db: Db, id: Uuid, lo: real, hi: real)
    requires Reachable(m, db) && id in db.orders && db.orders[id].average.Some?
    requires forall i :: 0 <= i < |db.fills| && db.fills[i].orderId == id ==> lo <= db.fills[i].price <= hi
    ensures var o, fs := db.orders[id], FillsOf(db.fills, id);
      && o.filled == QuantityOf(fs) > 0.0
      && Within(m, o.average.value - ValueOf(fs) / o.filled, |fs| as real)
      && (m.Exact? ==> o.average.value * o.filled == ValueOf(fs) && lo <= o.average.value <= hi)
  {
    hide Inv;
    hide Reachable;
    hide FillsOf;
    hide FillsInv;
    hide ValueOf;
    hide QuantityOf;
    hide TotalsAgree;
    hide Within;
    ReachableInv(m, db);
    var o, fs := db.orders[id], FillsOf(db.fills, id);
    TotalsOf(m, db, id);
    FilledQuantity(m, o, fs);
    FillsBetween(m, db, id, lo, hi);
    AverageOfTotals(m, o, fs, lo, hi);
  }

  lemma FilledQuantity(m: Storage, o: Order, fs: seq<Fill>)
    requires TotalsAgree(m, o, fs)
    ensures o.filled == QuantityOf(fs)
  {
    hide Within;
  }

  lemma TotalsOf(m: Storage, db: Db, id: Uuid)
    requires Inv(m, db) && id in db.orders
    ensures FillsInv(m, db)
    ensures var o := db.orders[id]; TotalsAgree(m, o, FillsOf(db.fills, id)) && (o.average.None? <==> o.filled == 0.0) && o.filled >= 0.0
  {
    hide LedgerInv;
    hide AuditInv;
    hide OutboxInv;
    hide PositionsInv;
    hide UniqueKeys;
    hide FillRowOk;
    hide Stored;
    hide TotalsAgree;
    assert OrderOk(m, db.orders[id]);
  }

  lemma AverageOfTotals(m: Storage, o: Order, fs: seq<Fill>, lo: real, hi: real)
    requires TotalsAgree(m, o, fs) && o.filled > 0.0 && o.average.Some?
    requires forall i :: 0 <= i < |fs| ==> fs[i].quantity > 0.0 && lo <= fs[i].price <= hi
    ensures Within(m, o.average.value - ValueOf(fs) / o.filled, |fs| as real)
    ensures m.Exact? ==> o.average.value * o.filled == ValueOf(fs) && lo <= o.average.value <= hi
  {
    hide ValueOf;
    hide QuantityOf;
    var n, f, x, v := |fs| as real, o.filled, o.average.value, ValueOf(fs);
    ValueBetween(fs, lo, hi);
    var filledValue := ValueFilled(o);
    assert filledValue == f * x;
    AverageOf(m, filledValue, x, f, v, n, lo, hi);
  }

  lemma AverageOf(m: Storage, filledValue: real, x: real, f: real, v: real, n: real, lo: real, hi: real)
    requires f > 0.0 && filledValue == f * x && Within(m, filledValue - v, n * f) && Notional(f, lo) <= v <= Notional(f, hi)
    ensures Within(m, x - v / f, n)
    ensures m.Exact? ==> x * f == v && lo <= x <= hi
  {
    DivideWithin(m, x, f, v, n);
    if m.Exact? {
      ScaleOrder(f, lo, x);
      ScaleOrder(f, x, hi);
    }
  }

  lemma DivideWithin(m: Storage, x: real, f: real, v: real, n: real)
    requires f > 0.0 && Within(m, f * x - v, n * f)
    ensures Within(m, x - v / f, n)
  {
    var d := x - v / f;
    assert f * d == f * x - v;
    if m.Scale8? {
      var e := 0.000000005 * n;
      assert f * e == 0.000000005 * (n * f);
      assert f * -e == -(f * e);
      ScaleOrder(f, d, e);
      ScaleOrder(f, -e, d);
    }
  }
}
