/** The order state machine, the buying-power rule and request matching. */
module OrderRules {
  import opened Types

  function AllowedTransitions(s: Status): set<Status> {
    match s
    case New => {Validated, Rejected}
    case Validated => {Routed, Rejected, CancelPending}
    case Routed => {PartiallyFilled, Filled, Rejected, CancelPending, Cancelled}
    case PartiallyFilled => {Filled, CancelPending, Cancelled}
    case CancelPending => {Filled, Cancelled}
    case Filled => {}
    case Rejected => {}
    case Cancelled => {}
  }

  predicate TransitionAllowed(s: Status, t: Status) { t in AllowedTransitions(s) }

  predicate Cancellable(s: Status) { s.Validated? || s.Routed? || s.PartiallyFilled? }

  predicate Terminal(s: Status) { s.Filled? || s.Rejected? || s.Cancelled? }

  /** The statuses in which the broker may still fill or cancel the order. */
  predicate Working(s: Status) { s.Routed? || s.PartiallyFilled? || s.CancelPending? }

  function RequiredBuyingPower(side: Side, quantity: real, price: real): real {
    if side.Sell? then 0.0 else quantity * price
  }

  predicate MatchesRequest(o: Order, p: Payload) {
    && o.accountId == p.accountId
    && o.clientOrderId == p.clientOrderId
    && o.symbol == p.symbol
    && o.side == p.side
    && o.orderType == p.orderType
    && o.timeInForce == p.timeInForce
    && o.quantity == p.quantity
    && o.price == p.price
  }

  /** Position of a status in the life of an order; transitions only move forward. */
  function Rank(s: Status): nat {
    match s
    case New => 0
    case Validated => 1
    case Routed => 2
    case PartiallyFilled => 3
    case CancelPending => 4
    case Filled => 5
    case Rejected => 5
    case Cancelled => 5
  }

  /** The table has no cycles, and its sinks are exactly the terminal statuses. */
  lemma TransitionsMoveForward(s: Status, t: Status)
    ensures TransitionAllowed(s, t) ==> Rank(s) < Rank(t)
    ensures Terminal(s) <==> AllowedTransitions(s) == {}
  {
    assert s.New? ==> Validated in AllowedTransitions(s);
    assert s.Validated? ==> Routed in AllowedTransitions(s);
    assert s.Routed? || s.PartiallyFilled? || s.CancelPending? ==> Filled in AllowedTransitions(s);
  }

  /**
   * The transitions by where they lead. An order can be filled or cancelled at the broker exactly while it is
   * working, and asked to be cancelled exactly while it is cancellable.
   */
  lemma TransitionsByTarget(s: Status, t: Status)
    ensures TransitionAllowed(s, t) <==>
      match t
      case New => false
      case Validated => s == New
      case Routed => s == Validated
      case PartiallyFilled => s == Routed
      case Filled => s == Routed || s == PartiallyFilled || s == CancelPending
      case Rejected => s == New || s == Validated || s == Routed
      case CancelPending => s == Validated || s == Routed || s == PartiallyFilled
      case Cancelled => s == Routed || s == PartiallyFilled || s == CancelPending
    ensures Working(s) <==> TransitionAllowed(s, Filled)
    ensures Working(s) <==> TransitionAllowed(s, Cancelled)
    ensures Cancellable(s) <==> TransitionAllowed(s, CancelPending)
  {
  }
}
