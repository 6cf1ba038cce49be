/** The interface through which the services reach a broker. */
module BrokerAdapter {
  import opened Types

  /** The broker as the services see it: every call is on record, whether or not it raised. */
  class Broker {
    var calls: seq<Outbound>

    constructor ()
      ensures calls == []
    {
      calls := [];
    }

    /** The outage, when there is one, is the text of the exception the submission raises. */
    method SubmitOrder(order: BrokerOrder, outage: Option<string>) returns (raised: Option<string>)
      modifies this
      ensures calls == old(calls) + [Submit(order)] && raised == outage
    {
      calls := calls + [Submit(order)];
      raised := outage;
    }

    method CancelOrder(id: Uuid, reason: string)
      modifies this
      ensures calls == old(calls) + [CancelAtBroker(id, reason)]
    {
      calls := calls + [CancelAtBroker(id, reason)];
    }
  }
}
