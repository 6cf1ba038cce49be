/**
 * A fill the worker drops: a schedule that leads the whole system, rounded storage included, from its start
 * to an event that raises. The event is taken off the queue, the order stays routed and nobody works on it.
 */
module DroppedFills {
  import opened Types
  import opened Numeric
  import opened Tables
  import opened OrderRules
  import opened Transactions
  import opened Invariant
  import opened Steps
  import opened Guards
  import opened Money
  import opened Rounding
  import opened SimulatedBroker

  /** One more turn in which nothing is taken from the queue. */
  lemma OneMoreTurn(m: Storage, turns: seq<Turn>, t: Turn)
    requires CleanTurns(m, turns) && NothingDropped(m, turns)
    requires !t.Work? && (t.Client? ==> CleanCommand(m, t.command))
    ensures CleanTurns(m, turns + [t]) && NothingDropped(m, turns + [t])
    ensures Evolve(m, turns + [t]) == TakeTurn(m, Evolve(m, turns), t)
  {
    hide TakeTurn;
    hide CleanCommand;
    hide Undropped;
    assert (turns + [t])[..|turns|] == turns;
  }

  /** Opening an account calls nobody. */
  lemma OpeningTurn(id: Uuid, userId: string)
    ensures TakeTurn(Scale8, START, Client(Open(id, userId, 1.0))) ==
            START.(db := EMPTY.(accounts := map[id := Account(userId, 1.0, 0.0, 1)]))
    ensures CleanCommand(Scale8, Open(id, userId, 1.0))
  {
    AccountIsOpened(id, userId);
    hide Step;
    SpawnedTasks(map[], 0, []);
  }

  /** Placing the order starts its simulation, and reserves nothing. */
  lemma PlacingTurn(s: System, c: Command)
    requires Inv(Scale8, s.db) && Placeable(Scale8, s.db, c) && s.tasks == map[] && s.nextTask == 0
    requires s.db.accounts[c.payload.accountId].reserved == 0.0
    requires Stored(Scale8, Notional(c.payload.quantity, c.payload.price)) == 0.0
    ensures var s', o := TakeTurn(Scale8, s, Client(c)), NewOrder(c.payload, c.expiry);
      && s'.db.orders == s.db.orders[c.orderId := o.(status := Routed)]
      && c.payload.accountId in s'.db.accounts && s'.db.accounts[c.payload.accountId].reserved == 0.0
      && s'.db.processed == s.db.processed && s'.db.fills == s.db.fills
      && s'.tasks == map[0 := Simulation(ToBroker(c.orderId, o))] && s'.queue == s.queue
  {
    hide Inv;
    PlacementAccepted(Scale8, s.db, c);
    PlacementWrites(Scale8, c.payload, c.orderId, c.expiry, ViewOf(s.db, c));
    Placed(Scale8, s.db, c);
    assert 0.0 + Notional(c.payload.quantity, c.payload.price) == Notional(c.payload.quantity, c.payload.price);
    assert CallsOf(Scale8, s.db, c) == [Submit(ToBroker(c.orderId, NewOrder(c.payload, c.expiry)))];
    SpawnedTasks(s.tasks, 0, CallsOf(Scale8, s.db, c));
    hide PlaceVerdict;
    hide Step;
    hide Placeable;
    hide Notional;
    hide Stored;
    hide CallsOf;
    hide Spawn;
  }

  /** The simulation decides to fill the order at once, and puts that fill on the queue. */
  lemma WakingTurn(s: System, order: BrokerOrder, eventId: Uuid, executionId: string)
    requires s.tasks == map[0 := Simulation(order)] && s.queue == [] && s.db.processed == map[] && s.db.fills == []
    requires executionId != ""
    ensures TakeTurn(Scale8, s, Wake(0, DrawFull, eventId, executionId)) ==
            s.(tasks := map[], queue := [FullFillEvent(order, order.remaining, eventId, executionId)])
  {
    var s' := TakeTurn(Scale8, s, Wake(0, DrawFull, eventId, executionId));
    assert s'.tasks == map[];
  }

  /** What the first two turns reach: a routed buy, nothing reserved for it, and its simulation. */
  ghost predicate SmallBuyRouted(s: System, c: Command) {
    && c.Place?
    && s.db.orders == map[c.orderId := NewOrder(c.payload, c.expiry).(status := Routed)]
    && Unbacked(s.db, c.orderId) && s.db.processed == map[] && s.db.fills == []
    && s.tasks == map[0 := Simulation(ToBroker(c.orderId, NewOrder(c.payload, c.expiry)))] && s.queue == []
  }

  lemma SmallBuyIsRouted(userId: string, c: Command)
    requires c.Place? && c.payload.side.Buy? && c.payload.quantity == 0.00000001 && c.payload.price == 0.4
    ensures var turns := [Client(Open(c.payload.accountId, userId, 1.0)), Client(c)];
      CleanTurns(Scale8, turns) && NothingDropped(Scale8, turns) && SmallBuyRouted(Evolve(Scale8, turns), c)
  {
    var opening := Client(Open(c.payload.accountId, userId, 1.0));
    AccountIsFunded(userId, c.payload.accountId);
    SmallExists(c.payload);
    SmallParts(c);
    assert Notional(c.payload.quantity, c.payload.price) <= 1.0;
    hide Notional;
    hide Stored;
    hide Small;
    hide TakeTurn;
    hide Evolve;
    hide CleanCommand;
    hide Placeable;
    hide CleanTurns;
    hide NothingDropped;
    hide SystemOk;
    var s := Evolve(Scale8, [opening]);
    FirstIsPlaceable(s.db, c, userId);
    SystemStaysOk(Scale8, [opening]);
    assert Inv(Scale8, s.db) by { SystemParts(Scale8, s); }
    hide Inv;
    PlacingTurn(s, c);
    OneMoreTurn(Scale8, [opening], Client(c));
    assert [opening] + [Client(c)] == [opening, Client(c)];
  }

  lemma AccountIsFunded(userId: string, id: Uuid)
    ensures var turns := [Client(Open(id, userId, 1.0))];
      && CleanTurns(Scale8, turns) && NothingDropped(Scale8, turns)
      && Evolve(Scale8, turns) == START.(db := EMPTY.(accounts := map[id := Account(userId, 1.0, 0.0, 1)]))
  {
    var opening := Client(Open(id, userId, 1.0));
    OpeningTurn(id, userId);
    hide Stored;
    hide TakeTurn;
    hide CleanCommand;
    OneMoreTurn(Scale8, [], opening);
    assert [] + [opening] == [opening];
  }

  lemma WholeFillRaises(db: Db, id: Uuid, e: BrokerEvent)
    requires Inv(Scale8, db) && Unbacked(db, id) && EventOk(Scale8, db, e)
    requires e.kind.FullFill? && e.orderId == id && e.quantity == db.orders[id].remaining
    ensures Step(Scale8, db, Handle(e)).outcome.Fail? && Step(Scale8, db, Handle(e)).db == db
  {
    hide Inv;
    hide Step;
    hide FillIsFresh;
    hide Stored;
    WholeFillIsTaken(db, id, e);
    hide TakesEffect;
    UnbackedIsStranded(Scale8, db, id, e);
  }

  lemma WholeFillIsTaken(db: Db, id: Uuid, e: BrokerEvent)
    requires Inv(Scale8, db) && Unbacked(db, id) && EventOk(Scale8, db, e)
    requires e.kind.FullFill? && e.orderId == id && e.quantity == db.orders[id].remaining
    ensures TakesEffect(db.orders[id], e)
  {
    hide Inv;
    hide Stored;
    hide FillIsFresh;
    OrderOf(Scale8, db, id);
  }

  lemma DroppedFill(s: System, id: Uuid)
    requires SystemOk(Scale8, s) && Unbacked(s.db, id) && s.queue != []
    requires var e := s.queue[0]; e.kind.FullFill? && e.orderId == id && e.quantity == s.db.orders[id].remaining
    ensures Step(Scale8, s.db, Handle(s.queue[0])).outcome.Fail?
    ensures TakeTurn(Scale8, s, Work) == s.(queue := s.queue[1..])
  {
    hide Inv;
    hide Step;
    hide PlanOk;
    hide TasksOk;
    hide EventOk;
    hide Unbacked;
    HeadOk(Scale8, s);
    WholeFillRaises(s.db, id, s.queue[0]);
  }

  /** What the third turn reaches: nothing but the fill of the whole order is left to happen. */
  ghost predicate FillQueued(s: System, id: Uuid) {
    && Unbacked(s.db, id) && s.db.orders[id].status.Routed? && s.tasks == map[]
    && |s.queue| == 1 && s.queue[0].kind.FullFill? && s.queue[0].orderId == id
    && s.queue[0].quantity == s.db.orders[id].remaining
  }

  lemma FillIsQueued(s: System, c: Command, eventId: Uuid, executionId: string)
    requires SmallBuyRouted(s, c) && executionId != ""
    ensures FillQueued(TakeTurn(Scale8, s, Wake(0, DrawFull, eventId, executionId)), c.orderId)
  {
    var o := NewOrder(c.payload, c.expiry);
    WakingTurn(s, ToBroker(c.orderId, o), eventId, executionId);
    hide TakeTurn;
    hide Unbacked;
  }

  /** The schedule that drops the fill. */
  function DroppingTurns(userId: string, c: Command, eventId: Uuid, executionId: string): seq<Turn>
    requires c.Place?
  {
    [Client(Open(c.payload.accountId, userId, 1.0)), Client(c), Wake(0, DrawFull, eventId, executionId)]
  }

  lemma FillIsReached(userId: string, c: Command, eventId: Uuid, executionId: string)
    requires c.Place? && c.payload.side.Buy? && c.payload.quantity == 0.00000001 && c.payload.price == 0.4
    requires executionId != ""
    ensures var turns := DroppingTurns(userId, c, eventId, executionId);
      CleanTurns(Scale8, turns) && NothingDropped(Scale8, turns) && FillQueued(Evolve(Scale8, turns), c.orderId)
  {
    var two := [Client(Open(c.payload.accountId, userId, 1.0)), Client(c)];
    var wake := Wake(0, DrawFull, eventId, executionId);
    hide Evolve;
    hide SmallBuyRouted;
    hide FillQueued;
    hide TakeTurn;
    hide CleanTurns;
    hide NothingDropped;
    SmallBuyIsRouted(userId, c);
    FillIsQueued(Evolve(Scale8, two), c, eventId, executionId);
    OneMoreTurn(Scale8, two, wake);
    assert two + [wake] == DroppingTurns(userId, c, eventId, executionId);
  }

  /**
   * The worker can drop a fill: a client opens an account with one unit of cash and buys one step of 10^-8
   * at 0.4, the broker fills the order in full, and that fill raises. Nothing was dropped before it. When
   * the worker takes it the tables stay as they are, the order is left routed, and no task and no event is
   * left that would move it.
   */
  lemma WorkerCanDropAFill(userId: string, c: Command, eventId: Uuid, executionId: string)
    requires c.Place? && c.payload.side.Buy? && c.payload.quantity == 0.00000001 && c.payload.price == 0.4
    requires executionId != ""
    ensures var turns := DroppingTurns(userId, c, eventId, executionId);
      var s := Evolve(Scale8, turns);
      && CleanTurns(Scale8, turns) && NothingDropped(Scale8, turns)
      && |s.queue| == 1 && IsFill(s.queue[0]) && s.queue[0].orderId == c.orderId
      && c.orderId in s.db.orders && s.db.orders[c.orderId].status.Routed?
      && Step(Scale8, s.db, Handle(s.queue[0])).outcome.Fail?
      && TakeTurn(Scale8, s, Work) == System(s.db, map[], s.nextTask, [])
  {
    var turns := DroppingTurns(userId, c, eventId, executionId);
    FillIsReached(userId, c, eventId, executionId);
    SystemStaysOk(Scale8, turns);
    hide CleanTurns;
    hide NothingDropped;
    hide SystemOk;
    hide TakeTurn;
    hide Step;
    hide DroppingTurns;
    hide Evolve;
    var s := Evolve(Scale8, turns);
    DroppedFill(s, c.orderId);
  }
}
