/**
 * Concurrent transactions under row locks. A transaction locks the order, then the account, then the
 * position, reads each row as it locks it, looks at unlocked tables in between, and writes everything
 * when it commits. Every interleaving leaves the tables as some serial run of the committed
 * transactions would, and no set of transactions waits for one another in a circle.
 */
module RowLocks {
  import opened Types
  import opened Numeric
  import opened Tables
  import opened OrderRules
  import opened PositionRules
  import opened Transactions
  import Invariant
  import Steps

  datatype Lock = OrderLock(id: Uuid) | AccountLock(id: Uuid) | PositionLock(key: PositionKey)

  function LockRank(l: Lock): nat {
    match l
    case OrderLock(_) => 0
    case AccountLock(_) => 1
    case PositionLock(_) => 2
  }

  datatype Stage = Begun | HasOrder | Checked | HasAccount | HasPosition | Ready

  /** A transaction in flight: its command, how far it is, and what it has read. */
  datatype Txn = Txn(command: Command, stage: Stage, view: View)

  datatype World = World(db: Db, active: map<nat, Txn>, locks: map<Lock, nat>)

  const NOTHING := View(None, None, None, None, false, false, None, false, false)

  datatype Todo = TakeLock(lock: Lock) | Look | Finish

  /** The next thing a transaction does. */
  function Next(t: Txn): Todo {
    var v := t.view;
    match t.command
    case Place(p, _, _) =>
      (match t.stage
       case Begun => TakeLock(AccountLock(p.accountId))
       case HasAccount => if v.account.None? then Finish else Look
       case _ => Finish)
    case RoutingFailed(id, _) =>
      (match t.stage
       case Begun => TakeLock(OrderLock(id))
       case HasOrder =>
         if v.order.Some? && v.order.value.status.Routed? then TakeLock(AccountLock(v.order.value.accountId)) else Finish
       case _ => Finish)
    case RequestCancel(id, _) => if t.stage.Begun? then TakeLock(OrderLock(id)) else Finish
    case Handle(e) =>
      (match t.stage
       case Begun => TakeLock(OrderLock(e.orderId))
       case HasOrder => if v.order.None? then Finish else Look
       case Checked =>
         if v.order.Some? && !v.duplicate && TakesEffect(v.order.value, e) then TakeLock(AccountLock(v.order.value.accountId))
         else Finish
       case HasAccount =>
         if IsFill(e) && v.order.Some? && v.account.Some? then TakeLock(PositionLock(v.order.value.Key())) else Finish
       case HasPosition => Look
       case Ready => Finish)
    case _ => Finish
  }

  predicate RowExists(db: Db, l: Lock) {
    match l
    case OrderLock(id) => id in db.orders
    case AccountLock(id) => id in db.accounts
    case PositionLock(k) => k in db.positions
  }

  /** Reading the latest committed row while taking its lock; an absent row leaves nothing to lock. */
  function AfterLock(db: Db, t: Txn, l: Lock): Txn {
    match l
    case OrderLock(id) => t.(stage := HasOrder, view := t.view.(order := Lookup(db.orders, id)))
    case AccountLock(id) => t.(stage := HasAccount, view := t.view.(account := Lookup(db.accounts, id)))
    case PositionLock(k) => t.(stage := HasPosition, view := t.view.(position := Lookup(db.positions, k)))
  }

  /** The reads that take no lock: duplicate submissions, processed events, and the market price. */
  ghost function AfterLook(db: Db, t: Txn): Txn {
    match t.command
    case Place(p, _, _) =>
      t.(stage := Ready,
         view := t.view.(sameKey := FindByKey(db.orders, p.accountId, p.idempotencyKey),
                         clientIdTaken := ClientIdTaken(db.orders, p.accountId, p.clientOrderId)))
    case Handle(e) =>
      if t.stage.HasOrder? then t.(stage := Checked, view := t.view.(duplicate := e.eventId in db.processed))
      else t.(stage := Ready, view := t.view.(mark := if t.view.order.Some? then MarkOf(db.quotes, t.view.order.value.symbol) else None))
    case _ => t
  }

  /** Uniqueness is settled against the rows committed by then. */
  function AtCommit(db: Db, t: Txn): View {
    match t.command
    case Place(_, id, _) => t.view.(orderIdTaken := id in db.orders)
    case Handle(e) => t.view.(fillFresh := FillIsFresh(db.fills, e.eventId, ExecutionKey(e)))
    case _ => t.view
  }

  predicate EventIsNew(db: Db, c: Change) { c.processed.Some? ==> c.processed.value.0 !in db.processed }

  /** What a finished transaction writes, if it does not roll back. */
  function Outcome(m: Storage, db: Db, t: Txn): Option<Change>
    requires OnOneOrder(t.command)
  {
    var r := Judge(m, t.command, AtCommit(db, t));
    if r.Write? && EventIsNew(db, r.change) then Some(r.change) else None
  }

  function Unlock(locks: map<Lock, nat>, tid: nat): map<Lock, nat> {
    map l | l in locks && locks[l] != tid :: locks[l]
  }

  datatype Action =
    | Start(tid: nat, command: Command)
    | Advance(tid: nat)
    | RollBack(tid: nat)
    | Alone(command: Command)

  /** A tick waits for every position of its symbol; opening an account waits for nobody. */
  predicate RunsAlone(w: World, c: Command) {
    || c.Open?
    || (c.Tick? && forall k :: k in w.db.positions && k.symbol == c.symbol ==> PositionLock(k) !in w.locks)
  }

  ghost function Move(m: Storage, w: World, a: Action): World {
    match a
    case Start(tid, c) =>
      if tid in w.active || !OnOneOrder(c) then w else w.(active := w.active[tid := Txn(c, Begun, NOTHING)])
    case RollBack(tid) => World(w.db, w.active - {tid}, Unlock(w.locks, tid))
    case Alone(c) => if RunsAlone(w, c) then w.(db := Step(m, w.db, c).db) else w
    case Advance(tid) =>
      if tid !in w.active || !OnOneOrder(w.active[tid].command) then w
      else
        var t := w.active[tid];
        match Next(t)
        case TakeLock(l) =>
          if l in w.locks then w
          else
            World(w.db, w.active[tid := AfterLock(w.db, t, l)], if RowExists(w.db, l) then w.locks[l := tid] else w.locks)
        case Look => w.(active := w.active[tid := AfterLook(w.db, t)])
        case Finish =>
          var c := Outcome(m, w.db, t);
          World(if c.Some? then Commit(m, w.db, c.value) else w.db, w.active - {tid}, Unlock(w.locks, tid))
  }

  /** The command an action commits, if it commits one that writes. */
  ghost function Logged(m: Storage, w: World, a: Action): seq<Command> {
    match a
    case Alone(c) => if RunsAlone(w, c) then [c] else []
    case Advance(tid) =>
      if tid in w.active && OnOneOrder(w.active[tid].command) && Next(w.active[tid]).Finish? && Outcome(m, w.db, w.active[tid]).Some? then
        [w.active[tid].command]
      else []
    case _ => []
  }

  ghost function Interleave(m: Storage, w: World, moves: seq<Action>): World {
    if moves == [] then w else Move(m, Interleave(m, w, moves[..|moves| - 1]), moves[|moves| - 1])
  }

  /** The committed transactions in the order of their commits. */
  ghost function CommitLog(m: Storage, w: World, moves: seq<Action>): seq<Command> {
    if moves == [] then []
    else
      var rest := moves[..|moves| - 1];
      CommitLog(m, w, rest) + Logged(m, Interleave(m, w, rest), moves[|moves| - 1])
  }

  // ---------- equality up to marks ----------

  function Unmarked(p: Position): Position { p.(unrealized := 0.0, mark := None) }

  function UnmarkedAll(ps: map<PositionKey, Position>): map<PositionKey, Position> {
    map k | k in ps :: Unmarked(ps[k])
  }

  /** The database without the marks of its positions. */
  function Core(db: Db): Db { db.(positions := UnmarkedAll(db.positions)) }

  predicate SameButMark(p: Option<Position>, q: Option<Position>) {
    if p.Some? && q.Some? then Unmarked(p.value) == Unmarked(q.value) else p == q
  }

  predicate SameChange(c: Change, d: Change) {
    d == c.(position := d.position) && SameButMark(c.position, d.position)
  }

  predicate SameVerdict(x: Verdict, y: Verdict) {
    if x.Write? && y.Write? then SameChange(x.change, y.change) && x.answer == y.answer else x == y
  }

  predicate GoodMark(m: Storage, mark: Option<real>) { mark.Some? ==> Stored(m, mark.value) > 0.0 }

  /** The two views agree, up to marks, on everything the command looks at. */
  predicate AgreeFor(c: Command, v: View, u: View) {
    match c
    case Place(_, _, _) =>
      v.account == u.account && v.sameKey == u.sameKey && v.clientIdTaken == u.clientIdTaken && v.orderIdTaken == u.orderIdTaken
    case RoutingFailed(_, _) =>
      v.order == u.order && (v.order.Some? && v.order.value.status.Routed? ==> v.account == u.account)
    case RequestCancel(_, _) => v.order == u.order
    case Handle(e) =>
      && v.order == u.order
      && v.duplicate == u.duplicate
      && (v.order.Some? && !v.duplicate && TakesEffect(v.order.value, e) ==>
            && v.account == u.account
            && (IsFill(e) ==> v.fillFresh == u.fillFresh)
            && (IsFill(e) && v.account.Some? ==> SameButMark(v.position, u.position)))
    case _ => true
  }

  lemma ExecuteUpToMark(m: Storage, p: Option<Position>, q: Option<Position>, a: Option<real>, b: Option<real>, t: Trade)
    requires SameButMark(p, q) && t.quantity > 0.0 && Stored(m, t.price) > 0.0 && GoodMark(m, a) && GoodMark(m, b)
    ensures var x, y := Execute(p, a, t), Execute(q, b, t);
      && Unmarked(x) == Unmarked(y)
      && Unmarked(StorePosition(m, x)) == Unmarked(StorePosition(m, y))
      && PositionChecks(StorePosition(m, x)) == PositionChecks(StorePosition(m, y))
  {
    hide AfterFill;
    hide Stored;
    assert BookOf(p) == BookOf(q);
  }

  lemma FillUpToMark(m: Storage, e: BrokerEvent, v: View, u: View)
    requires v.order == u.order && v.account == u.account && v.fillFresh == u.fillFresh
    requires v.account.Some? ==> SameButMark(v.position, u.position)
    requires GoodMark(m, v.mark) && GoodMark(m, u.mark)
    requires v.order.Some? && e.price.Some? && e.quantity > 0.0
    ensures SameVerdict(FillVerdict(m, e, v), FillVerdict(m, e, u))
  {
    hide Stored;
    hide Execute;
    hide StorePosition;
    hide PositionChecks;
    hide AccountChecks;
    hide OrderChecks;
    hide Settle;
    hide Release;
    hide WithFill;
    var t := Trade(v.order.value.side, e.quantity, e.price.value);
    if Stored(m, e.price.value) > 0.0 && v.account.Some? {
      ExecuteUpToMark(m, v.position, u.position, v.mark, u.mark, t);
    }
  }

  /** Marks never influence what a transaction decides or writes, except the mark itself. */
  lemma JudgeUpToMark(m: Storage, c: Command, v: View, u: View)
    requires OnOneOrder(c) && AgreeFor(c, v, u) && GoodMark(m, v.mark) && GoodMark(m, u.mark)
    ensures SameVerdict(Judge(m, c, v), Judge(m, c, u))
  {
    hide Stored;
    hide FillVerdict;
    hide AccountChecks;
    hide OrderChecks;
    hide Release;
    if c.Handle? && v.order.Some? && !v.duplicate && IsFill(c.event) && TakesEffect(v.order.value, c.event) {
      FillUpToMark(m, c.event, v, u);
    }
  }

  // ---------- a serial run ignores marks too ----------

  /** The tables' keys are unique and every stored price is a positive stored value. */
  ghost predicate TablesOk(m: Storage, db: Db) {
    UniqueKeys(db.orders) && forall s :: s in db.quotes ==> Stored(m, db.quotes[s].price) > 0.0
  }

  lemma CoreRows(x: Db, y: Db, k: PositionKey)
    requires Core(x) == Core(y)
    ensures SameButMark(Lookup(x.positions, k), Lookup(y.positions, k))
  {
    assert UnmarkedAll(x.positions).Keys == UnmarkedAll(y.positions).Keys;
    if k in x.positions {
      assert k in UnmarkedAll(x.positions);
      assert UnmarkedAll(x.positions)[k] == UnmarkedAll(y.positions)[k];
    }
    if k in y.positions {
      assert k in UnmarkedAll(y.positions);
    }
  }

  lemma UnmarkedWrite(x: map<PositionKey, Position>, y: map<PositionKey, Position>, k: PositionKey, p: Position, q: Position)
    requires UnmarkedAll(x) == UnmarkedAll(y) && Unmarked(p) == Unmarked(q)
    ensures UnmarkedAll(x[k := p]) == UnmarkedAll(y[k := q])
  {
    assert UnmarkedAll(x[k := p]) == UnmarkedAll(x)[k := Unmarked(p)];
    assert UnmarkedAll(y[k := q]) == UnmarkedAll(y)[k := Unmarked(q)];
  }

  /** The same change, up to its mark, on the same tables, up to their marks. */
  lemma CommitUpToMark(m: Storage, x: Db, y: Db, c: Change, d: Change)
    requires Core(x) == Core(y) && SameChange(c, d)
    ensures Core(Commit(m, x, c)) == Core(Commit(m, y, d))
  {
    hide Stored;
    if c.position.Some? {
      UnmarkedWrite(x.positions, y.positions, c.order.Key(), StorePosition(m, c.position.value), StorePosition(m, d.position.value));
    }
  }

  lemma ViewsOfCore(m: Storage, x: Db, y: Db, c: Command)
    requires Core(x) == Core(y) && TablesOk(m, x) && OnOneOrder(c)
    ensures AgreeFor(c, ViewOf(x, c), ViewOf(y, c))
    ensures GoodMark(m, ViewOf(x, c).mark) && GoodMark(m, ViewOf(y, c).mark)
  {
    hide Stored;
    hide UniqueKeys;
    if !c.Place? && Subject(c) in x.orders {
      CoreRows(x, y, x.orders[Subject(c)].Key());
    }
  }

  lemma TickOnlyMarks(m: Storage, db: Db, symbol: string, price: real, at: int)
    ensures var after := ApplyTick(m, db, symbol, price, at).db;
      UnmarkedAll(after.positions) == UnmarkedAll(db.positions) && after == db.(quotes := after.quotes, positions := after.positions)
  {
    hide Stored;
    hide Unrealized;
  }

  lemma AloneUpToMark(m: Storage, x: Db, y: Db, c: Command)
    requires Core(x) == Core(y) && !OnOneOrder(c)
    ensures Core(Step(m, x, c).db) == Core(Step(m, y, c).db)
  {
    hide Stored;
    hide UnmarkedAll;
    if c.Tick? {
      TickOnlyMarks(m, x, c.symbol, c.price, c.at);
      TickOnlyMarks(m, y, c.symbol, c.price, c.at);
    }
  }

  lemma StepUpToMark(m: Storage, x: Db, y: Db, c: Command)
    requires Core(x) == Core(y) && TablesOk(m, x)
    ensures Core(Step(m, x, c).db) == Core(Step(m, y, c).db)
  {
    hide Judge;
    hide Core;
    hide Commit;
    hide AgreeFor;
    hide TablesOk;
    if OnOneOrder(c) {
      var v, u := ViewOf(x, c), ViewOf(y, c);
      ViewsOfCore(m, x, y, c);
      JudgeUpToMark(m, c, v, u);
      if Judge(m, c, v).Write? {
        CommitUpToMark(m, x, y, Judge(m, c, v).change, Judge(m, c, u).change);
      }
    } else {
      AloneUpToMark(m, x, y, c);
    }
  }

  // ---------- what holding a lock guarantees ----------

  predicate Holds(w: World, tid: nat, l: Lock) { l in w.locks && w.locks[l] == tid }

  /** The account a transaction works on, once it knows it. */
  function AccountOf(t: Txn): Option<Uuid> {
    if t.command.Place? then Some(t.command.payload.accountId)
    else if t.view.order.Some? then Some(t.view.order.value.accountId)
    else None
  }

  /** How far down the lock order a transaction has come: it holds no lock of this rank or above. */
  function Reach(t: Txn): nat {
    match t.stage
    case Begun => 0
    case HasOrder => 1
    case Checked => 1
    case HasAccount => 2
    case HasPosition => 3
    case Ready => 3
  }

  /** What the stage of a transaction says about what it has read. */
  predicate StageOk(m: Storage, t: Txn) {
    var v := t.view;
    && OnOneOrder(t.command)
    && (t.stage.Begun? ==> v == NOTHING)
    && (t.command.Place? ==> v.order.None? && (t.stage.Begun? || t.stage.HasAccount? || t.stage.Ready?))
    && (t.stage.HasOrder? || t.stage.Checked? ==> v.account.None?)
    && (t.command.Handle? && (t.stage.HasPosition? || t.stage.Ready?) ==> v.order.Some? && v.account.Some?)
    && (v.account.Some? ==> AccountOf(t).Some?)
    && GoodMark(m, v.mark)
  }

  /** The rows a transaction has read under lock are still the committed ones. */
  ghost predicate ReadsOk(w: World, tid: nat, t: Txn)
    requires OnOneOrder(t.command)
  {
    var v := t.view;
    && (v.order.Some? ==>
          && Holds(w, tid, OrderLock(Subject(t.command)))
          && Lookup(w.db.orders, Subject(t.command)) == v.order)
    && (v.account.Some? && AccountOf(t).Some? ==>
          && Holds(w, tid, AccountLock(AccountOf(t).value))
          && Lookup(w.db.accounts, AccountOf(t).value) == v.account)
    && (t.command.Place? && t.stage.Ready? && v.account.Some? ==>
          && (v.sameKey.None? ==> FindByKey(w.db.orders, t.command.payload.accountId, t.command.payload.idempotencyKey).None?)
          && (!v.clientIdTaken ==> !ClientIdTaken(w.db.orders, t.command.payload.accountId, t.command.payload.clientOrderId)))
    && (t.command.Handle? && (t.stage.HasPosition? || t.stage.Ready?) && v.order.Some? ==>
          && (v.position.Some? ==> Holds(w, tid, PositionLock(v.order.value.Key())))
          && Lookup(w.db.positions, v.order.value.Key()) == v.position)
  }

  ghost predicate TxnOk(m: Storage, w: World, tid: nat)
    requires tid in w.active
  {
    StageOk(m, w.active[tid]) && ReadsOk(w, tid, w.active[tid])
  }

  ghost predicate WorldOk(m: Storage, w: World) {
    && TablesOk(m, w.db)
    && (forall tid :: tid in w.active ==> TxnOk(m, w, tid))
    && (forall l :: l in w.locks ==> w.locks[l] in w.active && LockRank(l) < Reach(w.active[w.locks[l]]))
  }

  // ---------- what a commit touches ----------

  /** A change writes its transaction's own order and account, and keeps the order's identity. */
  predicate Footprint(c: Command, v: View, ch: Change)
    requires OnOneOrder(c)
  {
    && ch.orderId == Subject(c)
    && (c.Place? ==>
          && v.account.Some? && v.sameKey.None? && !v.clientIdTaken && !v.orderIdTaken
          && ch.order.accountId == c.payload.accountId
          && ch.order.idempotencyKey == c.payload.idempotencyKey
          && ch.order.clientOrderId == c.payload.clientOrderId)
    && (!c.Place? ==>
          && v.order.Some?
          && ch.order.accountId == v.order.value.accountId && ch.order.symbol == v.order.value.symbol
          && ch.order.idempotencyKey == v.order.value.idempotencyKey
          && ch.order.clientOrderId == v.order.value.clientOrderId)
    && (ch.account.Some? ==> v.account.Some?)
    && (ch.position.Some? ==> c.Handle? && v.account.Some?)
    && (c.Handle? ==> ch.processed.Some? && ch.processed.value.0 == c.event.eventId && !v.duplicate)
    && (c.Handle? && TakesEffect(v.order.value, c.event) ==> v.account.Some?)
    && (c.RoutingFailed? ==> v.order.value.status.Routed? && v.account.Some?)
  }

  lemma FillFootprint(m: Storage, e: BrokerEvent, v: View)
    requires v.order.Some? && e.price.Some? && e.quantity > 0.0 && !v.duplicate && FillVerdict(m, e, v).Write?
    ensures Footprint(Handle(e), v, FillVerdict(m, e, v).change)
  {
    hide Stored;
    hide Execute;
    hide AccountChecks;
    hide OrderChecks;
    hide PositionChecks;
    hide Settle;
    hide Release;
  }

  lemma CloseFootprint(m: Storage, e: BrokerEvent, v: View, closed: Order, kind: AuditKind)
    requires v.order.Some? && !v.duplicate && CloseVerdict(m, e, v, closed, kind).Write?
    requires closed == CancelledOrder(v.order.value) ||
             (closed.rejection.Some? && closed == RejectedOrder(v.order.value, closed.rejection.value))
    ensures Footprint(Handle(e), v, CloseVerdict(m, e, v, closed, kind).change)
  {
    hide Stored;
    hide AccountChecks;
    hide OrderChecks;
    hide Release;
  }

  lemma FootprintOf(m: Storage, c: Command, v: View)
    requires OnOneOrder(c) && Judge(m, c, v).Write?
    ensures Footprint(c, v, Judge(m, c, v).change)
  {
    hide Stored;
    hide FillVerdict;
    hide CloseVerdict;
    hide AccountChecks;
    hide OrderChecks;
    if c.Handle? {
      var e := c.event;
      if IsFill(e) && TakesEffect(v.order.value, e) {
        FillFootprint(m, e, v);
      } else if e.kind.Reject? && v.order.value.status.Routed? {
        CloseFootprint(m, e, v, RejectedOrder(v.order.value, ReasonOr(e, "Rejected by broker")), OrderRejected);
      } else if e.kind.Cancel? && Working(v.order.value.status) {
        CloseFootprint(m, e, v, CancelledOrder(v.order.value), OrderCancelled);
      }
    }
  }

  /** What the committing transaction writes, it has locked; new rows are under its account lock. */
  predicate Owned(w: World, tid: nat, ch: Change) {
    && (ch.orderId in w.db.orders ==>
          && Holds(w, tid, OrderLock(ch.orderId))
          && w.db.orders[ch.orderId].accountId == ch.order.accountId
          && w.db.orders[ch.orderId].idempotencyKey == ch.order.idempotencyKey
          && w.db.orders[ch.orderId].clientOrderId == ch.order.clientOrderId)
    && (ch.orderId !in w.db.orders || ch.account.Some? || ch.position.Some? ==> Holds(w, tid, AccountLock(ch.order.accountId)))
  }

  lemma CommitIsOwned(m: Storage, w: World, tid: nat)
    requires WorldOk(m, w) && tid in w.active && OnOneOrder(w.active[tid].command)
    requires Outcome(m, w.db, w.active[tid]).Some?
    ensures Owned(w, tid, Outcome(m, w.db, w.active[tid]).value)
  {
    hide Judge;
    hide TablesOk;
    hide Stored;
    var t := w.active[tid];
    assert TxnOk(m, w, tid);
    FootprintOf(m, t.command, AtCommit(w.db, t));
  }

  lemma NewOrderIsFresh(m: Storage, w: World, tid: nat)
    requires WorldOk(m, w) && tid in w.active && OnOneOrder(w.active[tid].command)
    requires Next(w.active[tid]).Finish? && Outcome(m, w.db, w.active[tid]).Some?
    requires Outcome(m, w.db, w.active[tid]).value.orderId !in w.db.orders
    ensures var o := Outcome(m, w.db, w.active[tid]).value.order;
      forall i :: i in w.db.orders && w.db.orders[i].accountId == o.accountId ==>
        w.db.orders[i].idempotencyKey != o.idempotencyKey && w.db.orders[i].clientOrderId != o.clientOrderId
  {
    hide Judge;
    hide TablesOk;
    hide Stored;
    var t := w.active[tid];
    assert TxnOk(m, w, tid);
    FootprintOf(m, t.command, AtCommit(w.db, t));
  }

  lemma CommitKeepsTables(m: Storage, w: World, tid: nat)
    requires WorldOk(m, w) && tid in w.active && OnOneOrder(w.active[tid].command)
    requires Next(w.active[tid]).Finish? && Outcome(m, w.db, w.active[tid]).Some?
    ensures TablesOk(m, Commit(m, w.db, Outcome(m, w.db, w.active[tid]).value))
  {
    hide Outcome;
    hide TxnOk;
    hide Stored;
    hide Next;
    var c := Outcome(m, w.db, w.active[tid]).value;
    CommitIsOwned(m, w, tid);
    if c.orderId !in w.db.orders {
      NewOrderIsFresh(m, w, tid);
    }
  }

  /** A commit leaves alone every row another transaction has read under lock. */
  lemma CommitKeepsTxn(m: Storage, w: World, tid: nat, ch: Change, other: nat)
    requires WorldOk(m, w) && Owned(w, tid, ch) && other in w.active && other != tid
    ensures TxnOk(m, World(Commit(m, w.db, ch), w.active - {tid}, Unlock(w.locks, tid)), other)
  {
    hide TablesOk;
    hide StageOk;
    hide ReadsOk;
    hide Owned;
    assert TxnOk(m, w, other);
    CommitKeepsReads(m, w, tid, ch, other);
  }

  lemma CommitKeepsReads(m: Storage, w: World, tid: nat, ch: Change, other: nat)
    requires other in w.active && TxnOk(m, w, other) && Owned(w, tid, ch) && other != tid
    ensures ReadsOk(World(Commit(m, w.db, ch), w.active - {tid}, Unlock(w.locks, tid)), other, w.active[other])
  {
    hide Stored;
    hide FindByKey;
    hide ClientIdTaken;
    hide GoodMark;
    var t := w.active[other];
    if t.command.Place? && t.stage.Ready? && t.view.account.Some? {
      KeysUntouched(m, w.db, ch, t.command.payload.accountId, t.command.payload.idempotencyKey, t.command.payload.clientOrderId);
    }
  }

  lemma KeysUntouched(m: Storage, db: Db, ch: Change, a: Uuid, key: string, clientId: string)
    requires ch.orderId in db.orders ==>
      && db.orders[ch.orderId].accountId == ch.order.accountId
      && db.orders[ch.orderId].idempotencyKey == ch.order.idempotencyKey
      && db.orders[ch.orderId].clientOrderId == ch.order.clientOrderId
    requires ch.orderId !in db.orders ==> ch.order.accountId != a
    ensures FindByKey(db.orders, a, key).None? ==> FindByKey(Commit(m, db, ch).orders, a, key).None?
    ensures ClientIdTaken(Commit(m, db, ch).orders, a, clientId) ==> ClientIdTaken(db.orders, a, clientId)
  {
    hide Stored;
    var orders := Commit(m, db, ch).orders;
    if FindByKey(orders, a, key).Some? {
      var id := FindByKey(orders, a, key).value.orderId;
      assert id in db.orders && db.orders[id].accountId == a && db.orders[id].idempotencyKey == key;
    }
  }

  // ---------- every move keeps the world in order ----------

  /** A transaction's facts are about its own reads, its own locks and the tables, nothing else. */
  lemma TxnFrame(m: Storage, w: World, w': World, tid: nat)
    requires tid in w.active && tid in w'.active && w'.active[tid] == w.active[tid]
    requires w'.db == w.db && TxnOk(m, w, tid)
    requires forall l :: Holds(w, tid, l) ==> Holds(w', tid, l)
    ensures TxnOk(m, w', tid)
  {
    hide FindByKey;
    hide ClientIdTaken;
    hide GoodMark;
    hide Subject;
  }

  lemma FinishKeepsWorld(m: Storage, w: World, tid: nat)
    requires WorldOk(m, w) && tid in w.active && OnOneOrder(w.active[tid].command) && Next(w.active[tid]).Finish?
    ensures WorldOk(m, Move(m, w, Advance(tid)))
  {
    hide Outcome;
    hide TablesOk;
    hide TxnOk;
    var w' := Move(m, w, Advance(tid));
    var c := Outcome(m, w.db, w.active[tid]);
    if c.Some? {
      CommitIsOwned(m, w, tid);
      CommitKeepsTables(m, w, tid);
      forall other | other in w'.active ensures TxnOk(m, w', other) {
        CommitKeepsTxn(m, w, tid, c.value, other);
      }
    } else {
      UnlockKeepsWorld(m, w, tid);
    }
  }

  lemma UnlockKeepsWorld(m: Storage, w: World, tid: nat)
    requires WorldOk(m, w)
    ensures WorldOk(m, World(w.db, w.active - {tid}, Unlock(w.locks, tid)))
  {
    hide TablesOk;
    hide TxnOk;
    var w' := World(w.db, w.active - {tid}, Unlock(w.locks, tid));
    forall other | other in w'.active ensures TxnOk(m, w', other) {
      TxnFrame(m, w, w', other);
    }
  }

  lemma LockClimbs(m: Storage, w: World, tid: nat)
    requires WorldOk(m, w) && tid in w.active && OnOneOrder(w.active[tid].command) && Next(w.active[tid]).TakeLock?
    requires Next(w.active[tid]).lock !in w.locks
    ensures Reach(w.active[tid]) <= LockRank(Next(w.active[tid]).lock) < Reach(Move(m, w, Advance(tid)).active[tid])
  {
    hide TablesOk;
    hide GuardFill;
    assert TxnOk(m, w, tid);
    hide TxnOk;
  }

  lemma LockKeepsStage(m: Storage, db: Db, t: Txn)
    requires StageOk(m, t) && Next(t).TakeLock?
    ensures StageOk(m, AfterLock(db, t, Next(t).lock))
  {
    hide GoodMark;
    hide GuardFill;
  }

  lemma LockKeepsReads(m: Storage, w: World, tid: nat)
    requires tid in w.active && TxnOk(m, w, tid) && Next(w.active[tid]).TakeLock?
    requires Next(w.active[tid]).lock !in w.locks
    ensures ReadsOk(Move(m, w, Advance(tid)), tid, AfterLock(w.db, w.active[tid], Next(w.active[tid]).lock))
  {
    hide FindByKey;
    hide ClientIdTaken;
    hide GoodMark;
    hide GuardFill;
  }

  lemma LockKeepsOwn(m: Storage, w: World, tid: nat)
    requires WorldOk(m, w) && tid in w.active && OnOneOrder(w.active[tid].command) && Next(w.active[tid]).TakeLock?
    requires Next(w.active[tid]).lock !in w.locks
    ensures TxnOk(m, Move(m, w, Advance(tid)), tid)
  {
    hide TablesOk;
    hide StageOk;
    hide ReadsOk;
    hide AfterLock;
    hide Next;
    hide Reach;
    hide LockRank;
    assert TxnOk(m, w, tid);
    LockKeepsStage(m, w.db, w.active[tid]);
    LockKeepsReads(m, w, tid);
  }

  lemma LockKeepsOther(m: Storage, w: World, tid: nat, other: nat)
    requires WorldOk(m, w) && tid in w.active && OnOneOrder(w.active[tid].command) && Next(w.active[tid]).TakeLock?
    requires other in w.active && other != tid
    ensures var w' := Move(m, w, Advance(tid)); other in w'.active && w'.active[other] == w.active[other] && TxnOk(m, w', other)
  {
    hide TablesOk;
    hide TxnOk;
    hide Next;
    hide AfterLock;
    TxnFrame(m, w, Move(m, w, Advance(tid)), other);
  }

  lemma LockKeepsWorld(m: Storage, w: World, tid: nat)
    requires WorldOk(m, w) && tid in w.active && OnOneOrder(w.active[tid].command) && Next(w.active[tid]).TakeLock?
    ensures WorldOk(m, Move(m, w, Advance(tid)))
  {
    hide TablesOk;
    hide TxnOk;
    hide Next;
    hide AfterLock;
    hide Reach;
    hide LockRank;
    var w' := Move(m, w, Advance(tid));
    if Next(w.active[tid]).lock !in w.locks {
      LockClimbs(m, w, tid);
      LockKeepsOwn(m, w, tid);
      forall other | other in w'.active ensures TxnOk(m, w', other) {
        if other != tid {
          LockKeepsOther(m, w, tid, other);
        }
      }
    }
  }

  lemma LookKeepsStage(m: Storage, db: Db, t: Txn)
    requires TablesOk(m, db) && StageOk(m, t) && Next(t).Look?
    ensures StageOk(m, AfterLook(db, t)) && Reach(t) <= Reach(AfterLook(db, t))
  {
    hide FindByKey;
    hide ClientIdTaken;
    hide UniqueKeys;
    hide Stored;
    hide GuardFill;
  }

  lemma LookKeepsReads(m: Storage, w: World, tid: nat)
    requires tid in w.active && TxnOk(m, w, tid) && Next(w.active[tid]).Look?
    ensures ReadsOk(Move(m, w, Advance(tid)), tid, AfterLook(w.db, w.active[tid]))
  {
    hide FindByKey;
    hide ClientIdTaken;
    hide GoodMark;
    hide GuardFill;
  }

  lemma LookKeepsOwn(m: Storage, w: World, tid: nat)
    requires WorldOk(m, w) && tid in w.active && OnOneOrder(w.active[tid].command) && Next(w.active[tid]).Look?
    ensures var w' := Move(m, w, Advance(tid));
      TxnOk(m, w', tid) && Reach(w.active[tid]) <= Reach(w'.active[tid])
  {
    hide TablesOk;
    hide StageOk;
    hide ReadsOk;
    hide AfterLook;
    hide Next;
    hide Reach;
    hide LockRank;
    assert TxnOk(m, w, tid);
    LookKeepsStage(m, w.db, w.active[tid]);
    LookKeepsReads(m, w, tid);
  }

  lemma LookKeepsWorld(m: Storage, w: World, tid: nat)
    requires WorldOk(m, w) && tid in w.active && OnOneOrder(w.active[tid].command) && Next(w.active[tid]).Look?
    ensures WorldOk(m, Move(m, w, Advance(tid)))
  {
    hide TxnOk;
    hide TablesOk;
    hide AfterLook;
    hide Next;
    hide Reach;
    hide LockRank;
    var w' := Move(m, w, Advance(tid));
    LookKeepsOwn(m, w, tid);
    forall other | other in w'.active ensures TxnOk(m, w', other) {
      if other != tid {
        TxnFrame(m, w, w', other);
      }
    }
  }

  lemma AloneKeepsTables(m: Storage, w: World, c: Command)
    requires TablesOk(m, w.db) && RunsAlone(w, c)
    ensures TablesOk(m, Step(m, w.db, c).db) && Step(m, w.db, c).db.orders == w.db.orders
  {
    hide Unrealized;
    if c.Tick? {
      StoredIsClean(m, c.price);
    }
    hide Round8;
  }

  lemma AloneKeepsTxn(m: Storage, w: World, c: Command, tid: nat)
    requires WorldOk(m, w) && RunsAlone(w, c) && tid in w.active
    ensures TxnOk(m, w.(db := Step(m, w.db, c).db), tid)
  {
    hide TablesOk;
    hide FindByKey;
    hide ClientIdTaken;
    hide GoodMark;
    hide Unrealized;
    hide Stored;
    assert TxnOk(m, w, tid);
    AloneKeepsTables(m, w, c);
  }

  /** Every move of every transaction keeps what the locks guarantee. */
  lemma MoveKeepsWorld(m: Storage, w: World, a: Action)
    requires WorldOk(m, w)
    ensures WorldOk(m, Move(m, w, a))
  {
    hide TablesOk;
    hide Step;
    match a
    case Start(tid, c) =>
      var w' := Move(m, w, a);
      forall other | other in w'.active ensures TxnOk(m, w', other) {
        if other in w.active {
          assert TxnOk(m, w, other);
        }
      }
    case RollBack(tid) => UnlockKeepsWorld(m, w, tid);
    case Alone(c) =>
      hide TxnOk;
      if RunsAlone(w, c) {
        AloneKeepsTables(m, w, c);
        forall tid | tid in w.active ensures TxnOk(m, w.(db := Step(m, w.db, c).db), tid) {
          AloneKeepsTxn(m, w, c, tid);
        }
      }
    case Advance(tid) =>
      hide WorldOk;
      if tid in w.active && OnOneOrder(w.active[tid].command) {
        match Next(w.active[tid])
        case TakeLock(_) => LockKeepsWorld(m, w, tid);
        case Look => LookKeepsWorld(m, w, tid);
        case Finish => FinishKeepsWorld(m, w, tid);
      }
  }

  // ---------- reduction to a serial run ----------

  /** A finishing transaction has read, up to marks, what an atomic one would read now. */
  lemma ReadsAreCurrent(m: Storage, w: World, tid: nat)
    requires WorldOk(m, w) && tid in w.active && OnOneOrder(w.active[tid].command)
    requires Next(w.active[tid]).Finish? && Outcome(m, w.db, w.active[tid]).Some?
    ensures AgreeFor(w.active[tid].command, AtCommit(w.db, w.active[tid]), ViewOf(w.db, w.active[tid].command))
  {
    hide Judge;
    hide TablesOk;
    hide FindByKey;
    hide ClientIdTaken;
    hide FillIsFresh;
    hide GuardFill;
    var t := w.active[tid];
    assert TxnOk(m, w, tid);
    FootprintOf(m, t.command, AtCommit(w.db, t));
    SameRowUpToMark(t.view.position);
  }

  lemma SameRowUpToMark(p: Option<Position>)
    ensures SameButMark(p, p)
  {
  }

  /** Committing is the atomic transaction, run at the moment of the commit, up to marks. */
  lemma CommitIsAtomic(m: Storage, w: World, tid: nat)
    requires WorldOk(m, w) && tid in w.active && OnOneOrder(w.active[tid].command)
    requires Next(w.active[tid]).Finish? && Outcome(m, w.db, w.active[tid]).Some?
    ensures Core(Commit(m, w.db, Outcome(m, w.db, w.active[tid]).value)) == Core(Step(m, w.db, w.active[tid].command).db)
  {
    hide Judge;
    hide Commit;
    hide Core;
    hide AgreeFor;
    hide SameChange;
    var t := w.active[tid];
    var v, u := AtCommit(w.db, t), ViewOf(w.db, t.command);
    ReadsAreCurrent(m, w, tid);
    assert TxnOk(m, w, tid);
    ViewsOfCore(m, w.db, w.db, t.command);
    JudgeUpToMark(m, t.command, v, u);
    CommitUpToMark(m, w.db, w.db, Judge(m, t.command, v).change, Judge(m, t.command, u).change);
  }

  lemma MoveIsSerial(m: Storage, w: World, a: Action)
    requires WorldOk(m, w)
    ensures Core(Move(m, w, a).db) == Core(Run(m, w.db, Logged(m, w, a)))
  {
    hide Core;
    hide Step;
    hide WorldOk;
    hide Outcome;
    assert forall c: Command :: Run(m, w.db, [c]) == Step(m, w.db, c).db by {
      forall c: Command ensures Run(m, w.db, [c]) == Step(m, w.db, c).db {
        assert [c][..0] == [];
        assert Run(m, w.db, [c][..0]) == w.db;
      }
    }
    if a.Advance? && a.tid in w.active && OnOneOrder(w.active[a.tid].command) && Next(w.active[a.tid]).Finish?
       && Outcome(m, w.db, w.active[a.tid]).Some? {
      CommitIsAtomic(m, w, a.tid);
    }
  }

  lemma {:induction false} InterleaveKeepsWorld(m: Storage, w: World, moves: seq<Action>)
    requires WorldOk(m, w)
    ensures WorldOk(m, Interleave(m, w, moves))
  {
    hide WorldOk;
    hide Move;
    if moves != [] {
      InterleaveKeepsWorld(m, w, moves[..|moves| - 1]);
      MoveKeepsWorld(m, Interleave(m, w, moves[..|moves| - 1]), moves[|moves| - 1]);
    }
  }

  lemma RunSnoc(m: Storage, db: Db, cs: seq<Command>, c: Command)
    ensures Run(m, db, cs + [c]) == Step(m, Run(m, db, cs), c).db
  {
    hide Step;
    assert (cs + [c])[..|cs + [c]| - 1] == cs;
  }

  /**
   * Every interleaving leaves the tables, marks aside, exactly as the serial run of the committed
   * transactions in the order of their commits.
   */
  lemma {:induction false} InterleavingsAreSerial(m: Storage, w: World, moves: seq<Action>)
    requires WorldOk(m, w)
    ensures Core(Interleave(m, w, moves).db) == Core(Run(m, w.db, CommitLog(m, w, moves)))
  {
    hide WorldOk;
    hide Move;
    hide Core;
    hide Step;
    hide Logged;
    if moves != [] {
      var rest, a := moves[..|moves| - 1], moves[|moves| - 1];
      var mid := Interleave(m, w, rest);
      InterleavingsAreSerial(m, w, rest);
      InterleaveKeepsWorld(m, w, rest);
      MoveIsSerial(m, mid, a);
      AppendedLog(m, mid, Run(m, w.db, CommitLog(m, w, rest)), w.db, CommitLog(m, w, rest), a);
    }
  }

  lemma AppendedLog(m: Storage, mid: World, serial: Db, start: Db, log: seq<Command>, a: Action)
    requires WorldOk(m, mid) && Core(mid.db) == Core(serial) && serial == Run(m, start, log)
    ensures Core(Run(m, mid.db, Logged(m, mid, a))) == Core(Run(m, start, log + Logged(m, mid, a)))
  {
    hide Core;
    hide Step;
    var more := Logged(m, mid, a);
    assert |more| <= 1;
    if more == [] {
      assert log + more == log;
    } else {
      var c := more[0];
      assert more == [c] && [] + [c] == [c];
      RunSnoc(m, mid.db, [], c);
      RunSnoc(m, start, log, c);
      StepUpToMark(m, mid.db, serial, c);
    }
  }

  // ---------- commits follow the order of locking ----------

  /** A lock is given up only by its holder ending. */
  lemma LocksAreKept(m: Storage, w: World, a: Action, tid: nat, l: Lock)
    requires WorldOk(m, w) && Holds(w, tid, l)
    ensures Holds(Move(m, w, a), tid, l) || tid !in Move(m, w, a).active
  {
    hide TxnOk;
    hide TablesOk;
    hide Next;
    hide Outcome;
    hide Step;
    hide AfterLock;
    hide AfterLook;
  }

  /** The world after the first n moves. */
  ghost function After(m: Storage, w: World, moves: seq<Action>, n: nat): World
    requires n <= |moves|
  {
    Interleave(m, w, moves[..n])
  }

  /** The n-th move carries out a transaction's last step. */
  ghost predicate EndsAt(m: Storage, w: World, moves: seq<Action>, n: nat, tid: nat) {
    n < |moves| && tid in After(m, w, moves, n).active && tid !in After(m, w, moves, n + 1).active
  }

  lemma AfterStep(m: Storage, w: World, moves: seq<Action>, n: nat)
    requires n < |moves|
    ensures After(m, w, moves, n + 1) == Move(m, After(m, w, moves, n), moves[n])
    ensures CommitLog(m, w, moves[..n + 1]) == CommitLog(m, w, moves[..n]) + Logged(m, After(m, w, moves, n), moves[n])
  {
    hide Move;
    hide Logged;
    assert moves[..n + 1][..n] == moves[..n];
  }

  lemma AfterOk(m: Storage, w: World, moves: seq<Action>, n: nat)
    requires WorldOk(m, w) && n <= |moves|
    ensures WorldOk(m, After(m, w, moves, n))
  {
    hide WorldOk;
    InterleaveKeepsWorld(m, w, moves[..n]);
  }

  /** A transaction keeps its command for as long as it is in flight. */
  lemma CommandStays(m: Storage, w: World, a: Action, tid: nat)
    requires tid in w.active && tid in Move(m, w, a).active
    ensures Move(m, w, a).active[tid].command == w.active[tid].command
  {
    hide Next;
    hide Outcome;
    hide Step;
  }

  lemma HolderIsActive(m: Storage, w: World, tid: nat, l: Lock)
    requires WorldOk(m, w) && Holds(w, tid, l)
    ensures tid in w.active
  {
    hide TxnOk;
    hide TablesOk;
    hide Reach;
    hide LockRank;
  }

  /** Between holding a lock and no longer holding it, a transaction ends, with the command it had. */
  lemma {:induction false} HolderEnds(m: Storage, w: World, moves: seq<Action>, i: nat, j: nat, l: Lock, x: nat) returns (k: nat)
    requires WorldOk(m, w) && i <= j <= |moves|
    requires Holds(After(m, w, moves, i), x, l) && !Holds(After(m, w, moves, j), x, l)
    ensures i <= k < j && EndsAt(m, w, moves, k, x) && x in After(m, w, moves, i).active
    ensures After(m, w, moves, k).active[x].command == After(m, w, moves, i).active[x].command
    decreases j - i
  {
    hide WorldOk;
    hide Move;
    hide Holds;
    hide After;
    var at, next := After(m, w, moves, i), After(m, w, moves, i + 1);
    AfterOk(m, w, moves, i);
    AfterStep(m, w, moves, i);
    HolderIsActive(m, at, x, l);
    LocksAreKept(m, at, moves[i], x, l);
    if x !in next.active {
      k := i;
    } else {
      CommandStays(m, at, moves[i], x);
      k := HolderEnds(m, w, moves, i + 1, j, l, x);
    }
  }

  lemma {:induction false} LogGrows(m: Storage, w: World, moves: seq<Action>, k: nat, n: nat)
    requires k <= n <= |moves|
    ensures CommitLog(m, w, moves[..k]) <= CommitLog(m, w, moves[..n])
    decreases n - k
  {
    hide CommitLog;
    hide Logged;
    hide After;
    if k < n {
      AfterStep(m, w, moves, k);
      LogGrows(m, w, moves, k + 1, n);
    }
  }

  /** What the log gains when a transaction ends: its own command, or nothing. */
  lemma EndLogs(m: Storage, w: World, a: Action, tid: nat)
    requires tid in w.active && tid !in Move(m, w, a).active
    ensures Logged(m, w, a) == [] || Logged(m, w, a) == [w.active[tid].command]
  {
    hide Outcome;
    hide Step;
  }

  /**
   * If x holds a lock before y does, x ends before y holds it, and if both commit, x's command stands
   * before y's in the log: the serial order is consistent with the order of locking.
   */
  lemma CommitsFollowLocks(m: Storage, w: World, moves: seq<Action>, i: nat, j: nat, n: nat, l: Lock, x: nat, y: nat) returns (k: nat)
    requires WorldOk(m, w) && i < j <= n < |moves| && x != y
    requires Holds(After(m, w, moves, i), x, l) && Holds(After(m, w, moves, j), y, l)
    requires EndsAt(m, w, moves, n, y) && Logged(m, After(m, w, moves, n), moves[n]) != []
    ensures i <= k < j && EndsAt(m, w, moves, k, x) && x in After(m, w, moves, i).active
    ensures var log := CommitLog(m, w, moves);
      var px, py := |CommitLog(m, w, moves[..k])|, |CommitLog(m, w, moves[..n])|;
      && py < |log| && log[py] == After(m, w, moves, n).active[y].command
      && (Logged(m, After(m, w, moves, k), moves[k]) != [] ==>
            px < py && log[px] == After(m, w, moves, i).active[x].command)
  {
    hide WorldOk;
    hide Move;
    hide After;
    hide CommitLog;
    hide Logged;
    k := HolderEnds(m, w, moves, i, j, l, x);
    EndLogged(m, w, moves, k, x);
    EndLogged(m, w, moves, n, y);
    LogGrows(m, w, moves, k + 1, n);
    assert moves[..|moves|] == moves;
    LogGrows(m, w, moves, n + 1, |moves|);
    LogGrows(m, w, moves, k + 1, |moves|);
  }

  lemma EndLogged(m: Storage, w: World, moves: seq<Action>, k: nat, x: nat)
    requires EndsAt(m, w, moves, k, x)
    ensures var own := Logged(m, After(m, w, moves, k), moves[k]);
      && CommitLog(m, w, moves[..k + 1]) == CommitLog(m, w, moves[..k]) + own
      && (own == [] || own == [After(m, w, moves, k).active[x].command])
  {
    hide Move;
    hide After;
    hide CommitLog;
    hide Logged;
    AfterStep(m, w, moves, k);
    EndLogs(m, After(m, w, moves, k), moves[k], x);
  }

  lemma StartingWorld(m: Storage)
    ensures WorldOk(m, World(EMPTY, map[], map[]))
  {
  }

  lemma CoreOf(x: Db, y: Db)
    requires Core(x) == Core(y)
    ensures x.accounts == y.accounts && x.orders == y.orders && x.fills == y.fills && x.processed == y.processed
    ensures x.audit == y.audit && x.outbox == y.outbox && x.quotes == y.quotes
    ensures forall k :: BookOf(Lookup(x.positions, k)) == BookOf(Lookup(y.positions, k))
  {
    forall k ensures BookOf(Lookup(x.positions, k)) == BookOf(Lookup(y.positions, k)) {
      CoreRows(x, y, k);
    }
  }

  /**
   * What concurrent transactions leave behind is a serially reachable state: the same accounts,
   * orders, fills, events and calls, the same position books, and the invariant that goes with them.
   */
  lemma ConcurrentStatesAreSerial(m: Storage, moves: seq<Action>)
    requires Steps.CleanRun(m, CommitLog(m, World(EMPTY, map[], map[]), moves))
    ensures var start := World(EMPTY, map[], map[]);
      var db, serial := Interleave(m, start, moves).db, Run(m, EMPTY, CommitLog(m, start, moves));
      && Invariant.Inv(m, serial)
      && db.accounts == serial.accounts && db.orders == serial.orders && db.fills == serial.fills
      && db.processed == serial.processed && db.audit == serial.audit && db.outbox == serial.outbox
      && (forall k :: BookOf(Lookup(db.positions, k)) == BookOf(Lookup(serial.positions, k)))
  {
    hide Invariant.Inv;
    hide Core;
    hide WorldOk;
    hide Interleave;
    hide Run;
    hide CommitLog;
    var start := World(EMPTY, map[], map[]);
    StartingWorld(m);
    InterleavingsAreSerial(m, start, moves);
    Invariant.EmptyInv(m);
    Steps.RunKeepsInv(m, EMPTY, CommitLog(m, start, moves));
    CoreOf(Interleave(m, start, moves).db, Run(m, EMPTY, CommitLog(m, start, moves)));
  }

  // ---------- no wait cycles ----------

  predicate Waits(w: World, x: nat, y: nat) {
    && x in w.active
    && Next(w.active[x]).TakeLock?
    && Holds(w, y, Next(w.active[x]).lock)
  }

  /** A transaction only ever asks for a lock above every lock it holds. */
  lemma LocksClimb(m: Storage, w: World, x: nat)
    requires WorldOk(m, w) && x in w.active && Next(w.active[x]).TakeLock?
    ensures LockRank(Next(w.active[x]).lock) >= Reach(w.active[x])
  {
    hide TablesOk;
    hide FindByKey;
    hide GuardFill;
    assert TxnOk(m, w, x);
  }

  predicate WaitPath(w: World, path: seq<nat>) {
    |path| >= 2 && forall i :: 0 <= i < |path| - 1 ==> Waits(w, path[i], path[i + 1])
  }

  /** The rank of the lock a transaction asks for; above every lock when it asks for none. */
  function WantedRank(w: World, x: nat): nat {
    if x in w.active && Next(w.active[x]).TakeLock? then LockRank(Next(w.active[x]).lock) else 3
  }

  lemma WaitClimbs(m: Storage, w: World, x: nat, y: nat)
    requires WorldOk(m, w) && Waits(w, x, y)
    ensures WantedRank(w, x) < WantedRank(w, y)
  {
    hide Next;
    hide TxnOk;
    hide TablesOk;
    if Next(w.active[y]).TakeLock? {
      LocksClimb(m, w, y);
    }
  }

  /** Along a chain of waiting transactions the locks asked for climb. */
  lemma {:induction false} WaitingClimbs(m: Storage, w: World, path: seq<nat>, j: nat)
    requires WorldOk(m, w) && WaitPath(w, path) && 0 < j < |path|
    ensures WantedRank(w, path[0]) + j <= WantedRank(w, path[j])
  {
    hide WorldOk;
    hide WantedRank;
    hide Waits;
    assert Waits(w, path[j - 1], path[j - 1 + 1]);
    WaitClimbs(m, w, path[j - 1], path[j]);
    if j > 1 {
      WaitingClimbs(m, w, path, j - 1);
    }
  }

  /** No transactions wait for one another in a circle, and no chain of waits is longer than three. */
  lemma NoWaitCycle(m: Storage, w: World, moves: seq<Action>, path: seq<nat>)
    requires WorldOk(m, w) && WaitPath(Interleave(m, w, moves), path)
    ensures path[0] != path[|path| - 1] && |path| <= 4
  {
    hide WorldOk;
    hide WaitPath;
    InterleaveKeepsWorld(m, w, moves);
    assert |path| >= 2 by {
      PathLength(Interleave(m, w, moves), path);
    }
    WaitingClimbs(m, Interleave(m, w, moves), path, |path| - 1);
    hide Interleave;
  }

  lemma PathLength(w: World, path: seq<nat>)
    requires WaitPath(w, path)
    ensures |path| >= 2
  {
  }

  /** While transactions are in flight, one of them can take its next step. */
  lemma {:induction false} SomeoneCanMove(m: Storage, w: World, x: nat) returns (y: nat)
    requires WorldOk(m, w) && x in w.active
    ensures y in w.active && (Next(w.active[y]).TakeLock? ==> Next(w.active[y]).lock !in w.locks)
    decreases 3 - WantedRank(w, x)
  {
    hide TxnOk;
    hide TablesOk;
    y := x;
    if Next(w.active[x]).TakeLock? && Next(w.active[x]).lock in w.locks {
      var z := w.locks[Next(w.active[x]).lock];
      assert Waits(w, x, z);
      WaitClimbs(m, w, x, z);
      hide Next;
      y := SomeoneCanMove(m, w, z);
    }
  }
}
