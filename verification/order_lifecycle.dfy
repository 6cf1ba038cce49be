/** Status changes and the audit log. */
module OrderLifecycle {
  import opened Types
  import opened OrderRules
  import opened Transactions
  import opened Database

  method AppendEvent(session: Session, order: OrderRow, kind: AuditKind, before: Option<Status>, after: Status)
    modifies session`events
    ensures session.events == old(session.events) + [AuditEvent(order.id, kind, before, after)]
  {
    session.events := session.events + [AuditEvent(order.id, kind, before, after)];
  }

  /** Change the status and record the change; false (an invalid transition) changes nothing. */
  method Transition(session: Session, order: OrderRow, target: Status, kind: AuditKind) returns (allowed: bool)
    modifies session`events, order`status
    ensures allowed == TransitionAllowed(old(order.status), target)
    ensures order.status == if allowed then target else old(order.status)
    ensures session.events == old(session.events) + if allowed then [Link(order.id, kind, old(order.status), target)] else []
  {
    allowed := target in AllowedTransitions(order.status);
    if allowed {
      var previous := order.status;
      order.status := target;
      AppendEvent(session, order, kind, Some(previous), target);
    }
  }
}
