/** The simulated broker as an object, and the worker that drains its queue: the turns of the system. */
module FakeBrokerAdapter {
  import opened Types
  import opened Numeric
  import opened Tables
  import opened Transactions
  import opened Database
  import opened SimulatedBroker
  import AccountService
  import CancellationService
  import ExecutionService
  import MarketDataService
  import OrderService

  class FakeBroker {
    var queue: seq<BrokerEvent>
    var tasks: map<nat, Task>
    var nextTask: nat

    constructor ()
      ensures queue == [] && tasks == map[] && nextTask == 0
    {
      queue, tasks, nextTask := [], map[], 0;
    }

    method StartTask(t: Task)
      modifies this`tasks, this`nextTask
      ensures tasks == old(tasks)[old(nextTask) := t] && nextTask == old(nextTask) + 1
    {
      tasks := tasks[nextTask := t];
      nextTask := nextTask + 1;
    }

    method SubmitOrder(order: BrokerOrder)
      modifies this`tasks, this`nextTask
      ensures tasks == Spawn(old(tasks), old(nextTask), [Submit(order)]) && nextTask == old(nextTask) + 1
    {
      SpawnedTasks(tasks, nextTask, [Submit(order)]);
      StartTask(Simulation(order));
    }

    method CancelOrder(id: Uuid, reason: string)
      modifies this`tasks, this`nextTask
      ensures tasks == Spawn(old(tasks), old(nextTask), [CancelAtBroker(id, reason)]) && nextTask == old(nextTask) + 1
    {
      SpawnedTasks(tasks, nextTask, [CancelAtBroker(id, reason)]);
      StartTask(Cancellation(id, reason));
    }

    method Put(e: BrokerEvent)
      modifies this`queue
      ensures queue == old(queue) + [e]
    {
      queue := queue + [e];
    }

    /** An order's task after its first delay: reject it, fill it, or fill a part and perhaps come back for the rest. */
    method SimulateOrder(k: nat, draw: Draw, eventId: Uuid, executionId: string)
      requires k in tasks && tasks[k].Simulation? && InRange(draw)
      modifies this`queue, this`tasks
      ensures queue == old(queue) + [Emitted(old(tasks[k]), draw, eventId, executionId)]
      ensures tasks == var more := Continuation(old(tasks[k]), draw);
        if more.Some? then old(tasks)[k := more.value] else old(tasks) - {k}
    {
      hide PartialQuantity;
      var order := tasks[k].order;
      match draw {
        case DrawReject =>
          Put(BrokerEvent(eventId, Reject, order.orderId, 0.0, None, None, Some("Rejected by simulated broker")));
        case DrawFull =>
          Put(FullFillEvent(order, order.remaining, eventId, executionId));
        case DrawPartial(ratio, more) =>
          var partial := PartialQuantity(order.remaining, ratio);
          Put(BrokerEvent(eventId, PartialFill, order.orderId, partial, Some(order.price), Some(executionId), None));
          if !order.timeInForce.Ioc? {
            var remaining := order.remaining - partial;
            if remaining > 0.0 && more {
              tasks := tasks[k := Remainder(order, remaining)];
              return;
            }
          }
      }
      tasks := tasks - {k};
    }

    /** A task's delay is over. */
    method Resume(k: nat, draw: Draw, eventId: Uuid, executionId: string)
      requires k in tasks && InRange(draw)
      modifies this`queue, this`tasks
      ensures queue == old(queue) + [Emitted(old(tasks[k]), draw, eventId, executionId)]
      ensures tasks == var more := Continuation(old(tasks[k]), draw);
        if more.Some? then old(tasks)[k := more.value] else old(tasks) - {k}
    {
      hide PartialQuantity;
      match tasks[k] {
        case Simulation(_) =>
          SimulateOrder(k, draw, eventId, executionId);
        case Remainder(order, quantity) =>
          Put(FullFillEvent(order, quantity, eventId, executionId));
          tasks := tasks - {k};
        case Cancellation(id, reason) =>
          Put(BrokerEvent(eventId, Cancel, id, 0.0, None, None, Some(reason)));
          tasks := tasks - {k};
      }
    }

    /** Shutting down drops the tasks; what is queued stays queued. */
    method Close()
      modifies this`tasks
      ensures tasks == map[]
    {
      tasks := map[];
    }
  }

  /** The running objects as a state of the system. */
  function SystemOf(database: Database, broker: FakeBroker, calls: seq<Outbound>): System
    reads database, broker
  {
    System(database.Tables(calls), broker.tasks, broker.nextTask, broker.queue)
  }

  /** The worker takes the oldest event; an event that fails is logged and dropped. */
  method WorkOnce(database: Database, broker: FakeBroker, ghost calls: seq<Outbound>) returns (outcome: Outcome)
    requires database.Valid() && broker.queue != []
    modifies database, broker`queue
    ensures database.Valid()
    ensures SystemOf(database, broker, calls) == TakeTurn(database.storage, old(SystemOf(database, broker, calls)), Work)
    ensures outcome == Step(database.storage, old(database.Tables(calls)), Handle(old(broker.queue[0]))).outcome
  {
    hide Step;
    hide OrdersOk;
    var event := broker.queue[0];
    broker.queue := broker.queue[1..];
    outcome := ExecutionService.ProcessEvent(database, event, calls);
  }

  /** A task of the broker wakes up with identifiers never used before. */
  method WakeTask(database: Database, broker: FakeBroker, k: nat, draw: Draw, eventId: Uuid, executionId: string,
                  ghost calls: seq<Outbound>)
    requires k in broker.tasks && InRange(draw) && FreshIds(SystemOf(database, broker, calls), eventId, executionId)
    modifies broker
    ensures SystemOf(database, broker, calls) ==
      TakeTurn(database.storage, old(SystemOf(database, broker, calls)), Wake(k, draw, eventId, executionId))
  {
    hide FreshIds;
    hide Emitted;
    hide Continuation;
    broker.Resume(k, draw, eventId, executionId);
  }

  /** A client submits an order, and the broker starts working it. */
  method SubmitOnce(database: Database, broker: FakeBroker, p: Payload, id: Uuid, expiry: int, calls: seq<Outbound>)
    returns (outcome: Outcome, later: seq<Outbound>)
    requires database.Valid()
    modifies database, broker
    ensures database.Valid()
    ensures SystemOf(database, broker, later) ==
      TakeTurn(database.storage, old(SystemOf(database, broker, calls)), Client(Place(p, id, expiry)))
    ensures outcome == Step(database.storage, old(database.Tables(calls)), Place(p, id, expiry)).outcome
  {
    hide Judge;
    hide OrdersOk;
    ghost var before, c := database.Tables(calls), Place(p, id, expiry);
    CallsAreAppended(database.storage, before, c);
    var submission;
    outcome, submission := OrderService.PlaceOrder(database, p, id, expiry, calls);
    later := calls + if submission.Some? then [Submit(submission.value)] else [];
    assert CallsOf(database.storage, before, c) == later[|calls|..];
    hide Step;
    hide CallsOf;
    if submission.Some? {
      broker.SubmitOrder(submission.value);
    }
  }

  /** A client, or the expiry scan, asks for a cancellation, and the broker starts on it. */
  method CancelOnce(database: Database, broker: FakeBroker, id: Uuid, reason: string, calls: seq<Outbound>)
    returns (outcome: Outcome, later: seq<Outbound>)
    requires database.Valid()
    modifies database, broker
    ensures database.Valid()
    ensures SystemOf(database, broker, later) ==
      TakeTurn(database.storage, old(SystemOf(database, broker, calls)), Client(RequestCancel(id, reason)))
    ensures outcome == Step(database.storage, old(database.Tables(calls)), RequestCancel(id, reason)).outcome
  {
    hide Judge;
    hide OrdersOk;
    ghost var before, c := database.Tables(calls), RequestCancel(id, reason);
    CallsAreAppended(database.storage, before, c);
    var notify;
    outcome, notify := CancellationService.MarkPending(database, id, reason, calls);
    later := calls + if notify then [CancelAtBroker(id, reason)] else [];
    assert CallsOf(database.storage, before, c) == later[|calls|..];
    hide Step;
    hide CallsOf;
    if notify {
      broker.CancelOrder(id, reason);
    }
  }

  /** A transaction's calls are what it adds to the calls made so far. */
  lemma CallsAreAppended(m: Storage, db: Db, c: Command)
    requires OnOneOrder(c)
    ensures Step(m, db, c).db.outbox == db.outbox + CallsOf(m, db, c)
  {
    hide Judge;
  }

  /** Shutting down: the system's tasks are gone, its queue and its tables are not. */
  method ShutDown(database: Database, broker: FakeBroker, ghost calls: seq<Outbound>)
    modifies broker
    ensures SystemOf(database, broker, calls) == TakeTurn(database.storage, old(SystemOf(database, broker, calls)), Shutdown)
  {
    broker.Close();
  }

  /** One turn of any kind on the running objects; the worker reports how its event was answered. */
  method TakeOne(database: Database, broker: FakeBroker, turn: Turn, calls: seq<Outbound>)
    returns (later: seq<Outbound>, answered: Option<Outcome>)
    requires database.Valid()
    modifies database, broker
    ensures database.Valid()
    ensures SystemOf(database, broker, later) == TakeTurn(database.storage, old(SystemOf(database, broker, calls)), turn)
    ensures turn.Work? && old(broker.queue) != [] ==>
      answered == Some(Step(database.storage, old(database.Tables(calls)), Handle(old(broker.queue[0]))).outcome)
    ensures !turn.Work? || old(broker.queue) == [] ==> answered.None?
  {
    hide Step;
    hide OrdersOk;
    hide FreshIds;
    hide Emitted;
    hide Continuation;
    later, answered := calls, None;
    var outcome;
    match turn {
      case Client(c) =>
        match c {
          case Place(p, id, expiry) => outcome, later := SubmitOnce(database, broker, p, id, expiry, calls);
          case RequestCancel(id, reason) => outcome, later := CancelOnce(database, broker, id, reason, calls);
          case Open(id, userId, cash) => outcome := AccountService.CreateAccount(database, id, userId, cash, calls);
          case Tick(symbol, price, at) => outcome := MarketDataService.ApplyTick(database, symbol, price, at, calls);
          case _ =>
        }
      case Wake(k, draw, eventId, executionId) =>
        if k in broker.tasks && InRange(draw) && FreshIds(SystemOf(database, broker, calls), eventId, executionId) {
          WakeTask(database, broker, k, draw, eventId, executionId, calls);
        }
      case Work =>
        if broker.queue != [] {
          outcome := WorkOnce(database, broker, calls);
          answered := Some(outcome);
        }
      case Shutdown => ShutDown(database, broker, calls);
    }
  }

  /** How many events the worker takes in the course of a schedule. */
  ghost function EventsTaken(m: Storage, turns: seq<Turn>): nat {
    if turns == [] then 0
    else
      var rest, t := turns[..|turns| - 1], turns[|turns| - 1];
      EventsTaken(m, rest) + if t.Work? && Evolve(m, rest).queue != [] then 1 else 0
  }

  predicate AllAnswered(answers: seq<Outcome>) { forall i :: 0 <= i < |answers| ==> answers[i].Ok? }

  /** One more turn keeps the answers in step with what was dropped. */
  lemma OneMoreAnswer(m: Storage, turns: seq<Turn>, n: nat, answers: seq<Outcome>, answered: Option<Outcome>)
    requires n < |turns| && (AllAnswered(answers) <==> NothingDropped(m, turns[..n]))
    requires var s := Evolve(m, turns[..n]);
      answered == if turns[n].Work? && s.queue != [] then Some(Step(m, s.db, Handle(s.queue[0])).outcome) else None
    ensures var later := if answered.Some? then answers + [answered.value] else answers;
      && (AllAnswered(later) <==> NothingDropped(m, turns[..n + 1]))
      && (|answers| == EventsTaken(m, turns[..n]) ==> |later| == EventsTaken(m, turns[..n + 1]))
    ensures Evolve(m, turns[..n + 1]) == TakeTurn(m, Evolve(m, turns[..n]), turns[n])
  {
    hide Step;
    hide TakeTurn;
    assert turns[..n + 1][..n] == turns[..n];
    if answered.Some? {
      var later := answers + [answered.value];
      assert forall i :: 0 <= i < |answers| ==> later[i] == answers[i];
      assert later[|answers|] == answered.value;
    }
  }

  /**
   * Run any schedule of clients, ticks, broker delays and worker turns on the objects. They end where the
   * system's transition relation says; every event the worker took was answered without an error if and
   * only if nothing was dropped, and so it is when the clients' amounts are stored as they are.
   */
  method RunSchedule(m: Storage, turns: seq<Turn>)
    returns (database: Database, broker: FakeBroker, calls: seq<Outbound>, answers: seq<Outcome>)
    ensures SystemOf(database, broker, calls) == Evolve(m, turns)
    ensures |answers| == EventsTaken(m, turns)
    ensures (forall i :: 0 <= i < |answers| ==> answers[i].Ok?) <==> NothingDropped(m, turns)
    ensures GoodTurns(m, turns) ==> forall i :: 0 <= i < |answers| ==> answers[i].Ok?
  {
    hide TakeTurn;
    hide Step;
    hide OrdersOk;
    hide Undropped;
    hide GoodTurns;
    database := new Database(m);
    broker := new FakeBroker();
    calls, answers := [], [];
    for n := 0 to |turns|
      invariant fresh(database) && fresh(broker) && database.Valid() && database.storage == m
      invariant SystemOf(database, broker, calls) == Evolve(m, turns[..n])
      invariant |answers| == EventsTaken(m, turns[..n])
      invariant AllAnswered(answers) <==> NothingDropped(m, turns[..n])
    {
      ghost var before := answers;
      var answered;
      calls, answered := TakeOne(database, broker, turns[n], calls);
      if answered.Some? {
        answers := answers + [answered.value];
      }
      OneMoreAnswer(m, turns, n, before, answered);
    }
    assert turns[..|turns|] == turns;
    if GoodTurns(m, turns) {
      GoodSchedules(m, turns);
    }
  }
}
